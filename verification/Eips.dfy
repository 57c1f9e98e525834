/** EIP reconciliation (pkg/qingcloud/qingcloud_utils.go). */
module Eips {
  import opened Wrappers
  import opened Apis
  import opened Sequences
  import opened CloudModel
  import opened ServiceConfig
  import opened Discipline

  // ---------- What is wanted ----------

  /** From the EIPs a load balancer had to those it is to have. */
  ghost predicate EipGoal(conf: Config, was: set<string>, now: set<string>) {
    if conf.eip.ids.Some? then
      now == if conf.eip.replace then Elements(conf.eip.ids.value) else was + Elements(conf.eip.ids.value)
    else if conf.eip.source.Some? then
      if was != {} then now == was else |now| == 1
    else if conf.networkType == NETWORK_INTERNAL then now == {}
    else now == was
  }

  /** The same for a run: a load balancer that is reused keeps its EIPs. */
  ghost predicate EipsReached(conf: Config, was: set<string>, now: set<string>) {
    if conf.reuseLBID != "" then now == was else EipGoal(conf, was, now)
  }

  /** An automatic mode, if any, is one of the three; `ParseServiceLBConfig` lets no other pass. */
  predicate SourceOK(conf: Config) {
    conf.eip.source.Some? ==> EipSourceValue(conf.eip.source.value)
  }

  /** The EIPs are as the configuration wants them. */
  ghost predicate EipSettled(conf: Config, have: set<string>) {
    if conf.reuseLBID != "" then true
    else if conf.eip.ids.Some? then
      Elements(conf.eip.ids.value) <= have && (conf.eip.replace ==> have <= Elements(conf.eip.ids.value))
    else if conf.eip.source.Some? then have != {}
    else if conf.networkType == NETWORK_INTERNAL then have == {}
    else true
  }

  /** Once reached, the goal asks for nothing more: reaching it again changes nothing. */
  lemma GoalSettles(conf: Config, was: set<string>, now: set<string>, then_: set<string>)
    requires EipGoal(conf, was, now)
    ensures EipSettled(conf, now)
    ensures EipGoal(conf, now, then_) <==> then_ == now
  {
  }

  /** Whether a load balancer with these EIPs has one once they are as the configuration wants them. */
  predicate KeepsEip(conf: Config, eips: set<string>) {
    if conf.reuseLBID != "" then eips != {}
    else if conf.eip.ids.Some? then conf.eip.ids.value != [] || (!conf.eip.replace && eips != {})
    else conf.eip.source.Some? || (conf.networkType != NETWORK_INTERNAL && eips != {})
  }

  lemma GoalKeeps(conf: Config, was: set<string>, now: set<string>)
    requires EipGoal(conf, was, now) && conf.reuseLBID == ""
    ensures now != {} <==> KeepsEip(conf, was)
  {
    if conf.eip.ids.Some? && conf.eip.ids.value != [] { assert conf.eip.ids.value[0] in now; }
  }

  // ---------- The plan ----------

  function NotAmong(q: seq<string>): string -> bool {
    (e: string) => e !in q
  }

  /** The configured EIPs the load balancer lacks. */
  function MissingEips(conf: Config, have: seq<string>): seq<string> {
    if conf.eip.ids.Some? then Pick(conf.eip.ids.value, NotAmong(have)) else []
  }

  /** The EIPs it has and is not to keep. */
  function SurplusEips(conf: Config, have: seq<string>): seq<string> {
    if conf.eip.ids.Some? then if conf.eip.replace then Pick(have, NotAmong(conf.eip.ids.value)) else []
    else if conf.eip.source.None? && conf.networkType == NETWORK_INTERNAL then have
    else []
  }

  /** Nothing but the pool of EIPs has changed, and that only by growing. */
  ghost predicate PoolGrew(s: State, t: State) {
    t.lbs == s.lbs && t.listeners == s.listeners && t.next == s.next && PoolKept(s, t)
  }

  /** No EIP of the pool was lost or changed. */
  ghost predicate PoolKept(s: State, t: State) {
    forall e | e in s.eips :: e in t.eips && t.eips[e] == s.eips[e]
  }

  /** An EIP of the pool that no load balancer holds. */
  ghost predicate Free(s: State, e: string) {
    e in s.eips && !Attached(s, e)
  }

  /** An EIP that `GetAvaliableEIPs` shows. */
  ghost predicate Offered(s: State, e: string) {
    Free(s, e) && s.eips[e].offered
  }

  /** The cloud has the EIPs that load balancer `id` still needs; one that is reused needs none. */
  ghost predicate EipsObtainable(conf: Config, s: State, id: string) {
    id in s.lbs && (conf.reuseLBID == "" ==> NeedsMet(conf, s, s.lbs[id].eips))
  }

  ghost predicate NeedsMet(conf: Config, s: State, have: set<string>) {
    && (conf.eip.ids.Some? ==> forall e | e in conf.eip.ids.value && e !in have :: Free(s, e))
    && (conf.eip.ids.None? && conf.eip.source == Some(USE_AVAILABLE_ONLY) && have == {} ==> exists e :: Offered(s, e))
  }

  /** An automatic mode comes to allocate an EIP: when it does nothing else, or finds none on offer. */
  ghost predicate Allocating(source: string, s: State) {
    source == ALLOCATE_ONLY || (source == USE_AVAILABLE_OR_ALLOCATE_ONE && forall e :: !Offered(s, e))
  }

  /** The configuration may have an EIP allocated. */
  ghost predicate MayAllocate(conf: Config, s: State) {
    conf.eip.ids.None? && conf.eip.source.Some? && Allocating(conf.eip.source.value, s)
  }

  /** The EIPs that have come to the pool are among these, and bear the controller's name. */
  ghost predicate NewAmong(s: State, t: State, eips: seq<string>) {
    forall e | e in t.eips && e !in s.eips :: e in eips && t.eips[e].name == ALLOCATED_EIP_NAME
  }

  /** The EIPs that have come to the pool are on load balancer `id`, and bear the controller's name. */
  ghost predicate NewHeld(s: State, t: State, id: string) {
    forall e | e in t.eips && e !in s.eips ::
      id in t.lbs && e in t.lbs[id].eips && t.eips[e].name == ALLOCATED_EIP_NAME
  }

  /** At most the pool of EIPs was changed, and that only by growing; at no step any load balancer. */
  ghost predicate PoolOnly(was: View, now: View, sc: Scope, ids: set<string>) {
    && was.log <= now.log && was.faults <= now.faults
    && AllDisciplined(sc, ids, now.log, |was.log|) && PoolGrew(was.st, now.st)
    && forall i | |was.log| <= i < |now.log| :: now.log[i].after.lbs == was.st.lbs
  }

  /** What fetching an EIP has led to. */
  ghost predicate EipPrepared(was: View, now: View, r: Result<string>, source: string, sc: Scope, ids: set<string>) {
    && PoolOnly(was, now, sc, ids) && Allocations(now.log, |was.log|, Allocating(source, was.st))
    && (r.Ok? ==> Free(now.st, r.value) && NewAmong(was.st, now.st, [r.value]))
    && (r.Ok? && source == USE_AVAILABLE_ONLY ==> exists e :: Offered(was.st, e))
    && (r.Err? && EipSourceValue(source) && (source == USE_AVAILABLE_ONLY ==> exists e :: Offered(was.st, e)) ==>
         now.faults > was.faults)
  }

  method PrepareEip(client: Cloud, source: string, ghost sc: Scope, ghost ids: set<string>) returns (r: Result<string>)
    requires client.Valid() && sc.allocates
    modifies client
    ensures client.Valid() && EipPrepared(old(client.Now()), client.Now(), r, source, sc, ids)
  {
    if source == ALLOCATE_ONLY {
      r := Allocate(client, sc, ids);
    } else if source == USE_AVAILABLE_ONLY {
      var eips := client.GetAvaliableEIPs();
      if eips.Err? { return Err(Failed); }
      if |eips.value| == 0 {
        assert forall e :: Offered(client.st, e) ==> e in eips.value;
        return Err(Failed);
      }
      assert eips.value[0] in eips.value && Offered(client.st, eips.value[0]);
      r := Ok(eips.value[0]);
    } else if source == USE_AVAILABLE_OR_ALLOCATE_ONE {
      var eips := client.GetAvaliableEIPs();
      if eips.Err? { return Err(Failed); }
      if |eips.value| == 0 {
        assert forall e :: Offered(client.st, e) <==> e in eips.value;
        r := Allocate(client, sc, ids);
      } else {
        r := Ok(eips.value[0]);
      }
    } else {
      r := Err(Failed);
    }
  }

  method Allocate(client: Cloud, ghost sc: Scope, ghost ids: set<string>) returns (r: Result<string>)
    requires client.Valid() && sc.allocates
    modifies client
    ensures client.Valid() && PoolOnly(old(client.Now()), client.Now(), sc, ids)
    ensures Allocations(client.log, |old(client.log)|, true)
    ensures if r.Ok? then Free(client.st, r.value) && NewAmong(old(client.st), client.st, [r.value])
            else client.faults > old(client.faults)
  {
    ghost var eip, addr;
    ghost var s := client.st;
    r, eip, addr := client.AllocateEIP();
    if r.Ok? {
      forall id | id in s.lbs ensures r.value !in s.lbs[id].eips {
        assert s.lbs[id].eips <= s.eips.Keys;
      }
    }
  }

  /** An EIP is to be fetched: an automatic mode, and none is there. */
  predicate ToBeFetched(conf: Config, have: seq<string>) {
    conf.eip.ids.None? && conf.eip.source.Some? && have == []
  }

  /** What planning has led to: the plan and, in the automatic modes, an EIP fetched for it. */
  ghost predicate EipsPlanned(was: View, now: View, ok: bool, conf: Config, have: seq<string>, toAdd: seq<string>,
                              toDel: seq<string>, sc: Scope, ids: set<string>) {
    && PoolOnly(was, now, sc, ids)
    && Allocations(now.log, |was.log|, ToBeFetched(conf, have) && MayAllocate(conf, was.st))
    && (if ToBeFetched(conf, have) then
          ok ==>
            && |toAdd| == 1 && Free(now.st, toAdd[0]) && toDel == [] && NewAmong(was.st, now.st, toAdd)
            && (conf.eip.source == Some(USE_AVAILABLE_ONLY) ==> exists e :: Offered(was.st, e))
        else
          && now == was && ok == (conf.eip.ids.Some? || SourceOK(conf))
          && (ok ==> toAdd == MissingEips(conf, have) && toDel == SurplusEips(conf, have)))
    && (!ok && SourceOK(conf) && (conf.eip.source == Some(USE_AVAILABLE_ONLY) ==> exists e :: Offered(was.st, e)) ==>
         now.faults > was.faults)
  }

  /** Which EIPs to associate and which to dissociate; in the automatic modes an EIP is fetched on the way. */
  method DiffLBEip(client: Cloud, conf: Config, have: seq<string>, ghost sc: Scope, ghost ids: set<string>)
    returns (ok: bool, toAdd: seq<string>, toDel: seq<string>)
    requires client.Valid() && sc.allocates
    modifies client
    ensures client.Valid()
    ensures EipsPlanned(old(client.Now()), client.Now(), ok, conf, have, toAdd, toDel, sc, ids)
  {
    ok, toAdd, toDel := true, [], [];
    if conf.eip.ids.Some? {
      toAdd := Minus(conf.eip.ids.value, have);
      if conf.eip.replace {
        toDel := Minus(have, conf.eip.ids.value);
      }
    } else if conf.eip.source.Some? {
      if EipSourceValue(conf.eip.source.value) {
        if |have| == 0 {
          var eip := PrepareEip(client, conf.eip.source.value, sc, ids);
          if eip.Err? {
            ok := false;
            return;
          }
          toAdd := [eip.value];
        }
      } else {
        ok := false;
      }
    } else if conf.networkType == NETWORK_INTERNAL {
      toDel := toDel + have;
    }
  }

  /** The elements of `a` that are not in `b`. */
  method Minus(a: seq<string>, b: seq<string>) returns (r: seq<string>)
    ensures r == Pick(a, NotAmong(b))
  {
    var present: set<string> := {};
    for i := 0 to |b|
      invariant present == Elements(b[..i])
    {
      present := present + {b[i]};
      assert b[..i + 1] == b[..i] + [b[i]];
    }
    assert b[..|b|] == b;
    r := [];
    ghost var keep := NotAmong(b);
    for i := 0 to |a|
      invariant r == Pick(a[..i], keep)
    {
      PickStep(a, i, keep);
      if a[i] !in present { r := r + [a[i]]; }
    }
    assert a[..|a|] == a;
  }

  // ---------- Carrying it out ----------

  /** `have` lists the EIPs of load balancer `id`. */
  ghost predicate ListsEips(s: State, id: string, have: seq<string>) {
    id in s.lbs && forall e :: e in have <==> e in s.lbs[id].eips
  }

  /** Only the EIPs of load balancer `id`, and the pool, have changed. */
  ghost predicate OnlyEips(s: State, t: State, id: string) {
    && t.listeners == s.listeners && t.next == s.next && t.lbs.Keys == s.lbs.Keys
    && (forall x | x in s.lbs && x != id :: t.lbs[x] == s.lbs[x])
    && (id in s.lbs ==> t.lbs[id] == s.lbs[id].(eips := t.lbs[id].eips))
  }

  lemma PlanReaches(conf: Config, have: seq<string>, was: set<string>)
    requires conf.eip.ids.Some? || conf.eip.source.None? || have != []
    requires forall e :: e in have <==> e in was
    ensures EipGoal(conf, was, (was + Elements(MissingEips(conf, have))) - Elements(SurplusEips(conf, have)))
    ensures EipSettled(conf, was) && conf.reuseLBID == "" ==>
              MissingEips(conf, have) == [] && SurplusEips(conf, have) == []
  {
    if conf.eip.ids.Some? {
      var want := conf.eip.ids.value;
      PickMembers(want, NotAmong(have));
      PickMembers(have, NotAmong(want));
      if EipSettled(conf, was) && conf.reuseLBID == "" {
        PickNone(want, NotAmong(have));
        if conf.eip.replace { PickNone(have, NotAmong(want)); }
      }
    } else if conf.eip.source.None? && conf.networkType == NETWORK_INTERNAL {
      assert have != [] ==> have[0] in was;
    } else {
      assert have != [] ==> have[0] in was;
    }
  }

  /** At no step is the load balancer without an EIP, if it has one before and after. */
  ghost predicate NeverBare(log: seq<Step>, from: nat, id: string, was: set<string>, now: set<string>) {
    was != {} && now != {} ==>
      forall i | from <= i < |log| :: id in log[i].after.lbs && log[i].after.lbs[id].eips != {}
  }

  /** The EIPs a load balancer has after one call on them. */
  ghost function EipsAfter(call: Call, have: set<string>): set<string> {
    if call.AssociateEIPs? then have + Elements(call.eips)
    else if call.DissociateEIPs? then have - Elements(call.eips)
    else have
  }

  lemma EipCallEffect(s: State, call: Call, ok: bool, t: State)
    requires call.AssociateEIPs? || call.DissociateEIPs?
    requires call.id in s.lbs && Outcome(s, call, ok, t)
    ensures OnlyEips(s, t, call.id) && t.eips == s.eips
    ensures ok ==> t.lbs[call.id].eips == EipsAfter(call, s.lbs[call.id].eips)
    ensures t.lbs[call.id].eips == s.lbs[call.id].eips || t.lbs[call.id].eips == EipsAfter(call, s.lbs[call.id].eips)
  {
  }

  /** What one call on the EIPs of a load balancer has led to. */
  ghost predicate EipsChanged(was: View, now: View, ok: bool, call: Call, sc: Scope, ids: set<string>)
    requires call.AssociateEIPs? || call.DissociateEIPs?
  {
    var s, t, id := was.st, now.st, call.id;
    && now.log == was.log + [Step(call, s, t)] && was.faults <= now.faults
       && AllDisciplined(sc, ids, now.log, |was.log|)
    && OnlyEips(s, t, id) && t.eips == s.eips && id in s.lbs
    && (t.lbs[id].eips == EipsAfter(call, s.lbs[id].eips) || (!ok && t.lbs[id].eips == s.lbs[id].eips))
    && (ok && call.AssociateEIPs? ==> forall e | e in call.eips :: e in s.lbs[id].eips || Free(s, e))
    && (!ok && (call.AssociateEIPs? ==> forall e | e in call.eips :: Free(s, e)) ==> now.faults > was.faults)
  }

  method ChangeEips(client: Cloud, call: Call, ghost sc: Scope, ghost ids: set<string>) returns (ok: bool)
    requires call.AssociateEIPs? || call.DissociateEIPs?
    requires client.Valid() && sc.eips && InScope(sc, client.st, call.id)
    modifies client
    ensures client.Valid() && EipsChanged(old(client.Now()), client.Now(), ok, call, sc, ids)
  {
    ok := client.Invoke(call);
    EipCallEffect(old(client.st), call, ok, client.st);
  }

  /** What carrying a plan out on load balancer `id` has led to. */
  ghost predicate EipsCarried(was: View, now: View, ok: bool, id: string, toAdd: seq<string>, toDel: seq<string>,
                              sc: Scope, ids: set<string>) {
    var s, t := was.st, now.st;
    && was.log <= now.log && was.faults <= now.faults && AllDisciplined(sc, ids, now.log, |was.log|)
    && OnlyEips(s, t, id) && t.eips == s.eips && id in s.lbs
    && (ok ==> t.lbs[id].eips == (s.lbs[id].eips + Elements(toAdd)) - Elements(toDel))
    && (ok ==> forall e | e in toAdd :: e in s.lbs[id].eips || Free(s, e))
    && Allocations(now.log, |was.log|, false)
    && NeverBare(now.log, |was.log|, id, s.lbs[id].eips, t.lbs[id].eips)
    && (!ok && (forall e | e in toAdd :: Free(s, e)) ==> now.faults > was.faults)
    && (toAdd == [] && toDel == [] ==> ok && now == was)
  }

  /** Only to associate, or only to dissociate, is one call. */
  lemma OneEipCall(was: View, now: View, ok: bool, call: Call, toAdd: seq<string>, toDel: seq<string>, sc: Scope,
                   ids: set<string>)
    requires call.AssociateEIPs? || call.DissociateEIPs?
    requires EipsChanged(was, now, ok, call, sc, ids)
    requires if call.AssociateEIPs? then toAdd == call.eips && toAdd != [] && (toDel == [] || !ok)
             else toAdd == [] && toDel == call.eips && toDel != []
    ensures EipsCarried(was, now, ok, call.id, toAdd, toDel, sc, ids)
  {
  }

  /** In between the load balancer has the EIPs of both sides, and so one when it had one. */
  lemma TwoEipCalls(was: View, mid: View, now: View, ok: bool, id: string, toAdd: seq<string>, toDel: seq<string>,
                    sc: Scope, ids: set<string>)
    requires EipsChanged(was, mid, true, AssociateEIPs(id, toAdd), sc, ids)
    requires EipsChanged(mid, now, ok, DissociateEIPs(id, toDel), sc, ids) && toAdd != []
    ensures EipsCarried(was, now, ok, id, toAdd, toDel, sc, ids)
  {
  }

  /** Associates first, then dissociates. */
  method CarryOut(client: Cloud, id: string, toAdd: seq<string>, toDel: seq<string>, ghost sc: Scope,
                  ghost ids: set<string>)
    returns (ok: bool)
    requires client.Valid() && sc.eips && InScope(sc, client.st, id)
    modifies client
    ensures client.Valid() && EipsCarried(old(client.Now()), client.Now(), ok, id, toAdd, toDel, sc, ids)
  {
    ok := true;
    ghost var was := client.Now();
    if |toAdd| > 0 {
      ok := ChangeEips(client, AssociateEIPs(id, toAdd), sc, ids);
      if !ok || |toDel| == 0 { OneEipCall(was, client.Now(), ok, AssociateEIPs(id, toAdd), toAdd, toDel, sc, ids); }
      if !ok { return; }
    }
    if |toDel| > 0 {
      ghost var mid := client.Now();
      ok := ChangeEips(client, DissociateEIPs(id, toDel), sc, ids);
      if |toAdd| > 0 {
        TwoEipCalls(was, mid, client.Now(), ok, id, toAdd, toDel, sc, ids);
      } else {
        OneEipCall(was, client.Now(), ok, DissociateEIPs(id, toDel), toAdd, toDel, sc, ids);
      }
    }
  }

  /** What reconciling the EIPs of load balancer `id` has led to. */
  ghost predicate EipsReconciled(was: View, now: View, ok: bool, updated: bool, conf: Config, id: string, sc: Scope,
                                 ids: set<string>) {
    var s, t := was.st, now.st;
    && was.log <= now.log && was.faults <= now.faults && AllDisciplined(sc, ids, now.log, |was.log|)
    && OnlyEips(s, t, id) && id in s.lbs && PoolKept(s, t)
    && Allocations(now.log, |was.log|, s.lbs[id].eips == {} && MayAllocate(conf, s))
    && (ok ==>
         && EipGoal(conf, s.lbs[id].eips, t.lbs[id].eips) && (!updated ==> t == s)
         && NeedsMet(conf, s, s.lbs[id].eips) && NewHeld(s, t, id))
    && NeverBare(now.log, |was.log|, id, s.lbs[id].eips, t.lbs[id].eips)
    && (EipSettled(conf, s.lbs[id].eips) && SourceOK(conf) && conf.reuseLBID == "" ==> ok && !updated && now == was)
    && (!ok && SourceOK(conf) && EipsObtainable(conf, s, id) ==> now.faults > was.faults)
  }

  /** There was no plan. */
  lemma Unplanned(was: View, now: View, conf: Config, id: string, have: seq<string>, sc: Scope, ids: set<string>)
    requires conf.reuseLBID == ""
    requires ListsEips(was.st, id, have) && EipsPlanned(was, now, false, conf, have, [], [], sc, ids)
    ensures EipsReconciled(was, now, false, false, conf, id, sc, ids)
  {
    NoneHad(have, was.st.lbs[id].eips);
  }

  /** The plan was carried out. */
  lemma PlannedThenCarried(was: View, mid: View, now: View, ok: bool, conf: Config, id: string, have: seq<string>,
                           toAdd: seq<string>, toDel: seq<string>, sc: Scope, ids: set<string>)
    requires conf.reuseLBID == ""
    requires ListsEips(was.st, id, have) && EipsPlanned(was, mid, true, conf, have, toAdd, toDel, sc, ids)
    requires EipsCarried(mid, now, ok, id, toAdd, toDel, sc, ids)
    ensures EipsReconciled(was, now, ok, |toAdd| > 0 || |toDel| > 0, conf, id, sc, ids)
  {
    var had := was.st.lbs[id].eips;
    JoinDisciplined(sc, ids, mid.log, now.log, |was.log|);
    PlannedGoal(conf, have, had, toAdd, toDel);
    if EipsObtainable(conf, was.st, id) { PlannedFree(conf, was.st, mid.st, id, have, toAdd); }
    JoinNeverBare(|was.log|, mid.log, now.log, id, had, now.st.lbs[id].eips);
    NoneHad(have, had);
    JoinAllocations(mid.log, now.log, |was.log|, ToBeFetched(conf, have) && MayAllocate(conf, was.st), false);
    if ok { CarriedNeeds(was, mid, now, conf, id, have, toAdd, toDel, sc, ids); }
  }

  /** A plan that could be carried out asked for nothing that cannot be had, and uses what was allocated for it. */
  lemma CarriedNeeds(was: View, mid: View, now: View, conf: Config, id: string, have: seq<string>, toAdd: seq<string>,
                     toDel: seq<string>, sc: Scope, ids: set<string>)
    requires ListsEips(was.st, id, have) && EipsPlanned(was, mid, true, conf, have, toAdd, toDel, sc, ids)
    requires EipsCarried(mid, now, true, id, toAdd, toDel, sc, ids)
    ensures NeedsMet(conf, was.st, was.st.lbs[id].eips) && NewHeld(was.st, now.st, id)
  {
    NoneHad(have, was.st.lbs[id].eips);
    if conf.eip.ids.Some? { PickMembers(conf.eip.ids.value, NotAmong(have)); }
  }

  method ReconcileEips(client: Cloud, conf: Config, id: string, have: seq<string>, ghost sc: Scope,
                       ghost ids: set<string>)
    returns (ok: bool, updated: bool)
    requires client.Valid() && ListsEips(client.st, id, have) && sc.eips && sc.allocates && InScope(sc, client.st, id)
    requires conf.reuseLBID == ""
    modifies client
    ensures client.Valid() && EipsReconciled(old(client.Now()), client.Now(), ok, updated, conf, id, sc, ids)
  {
    ghost var was := client.Now();
    var toAdd, toDel;
    ok, toAdd, toDel := DiffLBEip(client, conf, have, sc, ids);
    ghost var mid := client.Now();
    if !ok {
      Unplanned(was, mid, conf, id, have, sc, ids);
      return false, false;
    }
    ok := CarryOut(client, id, toAdd, toDel, sc, ids);
    updated := |toAdd| > 0 || |toDel| > 0;
    PlannedThenCarried(was, mid, client.Now(), ok, conf, id, have, toAdd, toDel, sc, ids);
  }

  /** What the differ wants to associate can be had. */
  lemma PlannedFree(conf: Config, s: State, t: State, id: string, have: seq<string>, toAdd: seq<string>)
    requires ListsEips(s, id, have) && EipsObtainable(conf, s, id) && conf.reuseLBID == ""
    requires if !ToBeFetched(conf, have)
             then t == s && toAdd == MissingEips(conf, have)
             else |toAdd| == 1 && Free(t, toAdd[0])
    ensures forall e | e in toAdd :: Free(t, e)
  {
    if conf.eip.ids.Some? { PickMembers(conf.eip.ids.value, NotAmong(have)); }
  }

  lemma NoneHad(have: seq<string>, was: set<string>)
    requires forall e :: e in have <==> e in was
    ensures have == [] <==> was == {}
  {
    if have != [] { assert have[0] in was; }
  }

  /** Whatever the differ answered, carrying it out reaches the goal. */
  lemma PlannedGoal(conf: Config, have: seq<string>, was: set<string>, toAdd: seq<string>, toDel: seq<string>)
    requires forall e :: e in have <==> e in was
    requires if conf.eip.ids.Some? || conf.eip.source.None? || have != []
             then toAdd == MissingEips(conf, have) && toDel == SurplusEips(conf, have)
             else |toAdd| == 1 && toDel == []
    ensures EipGoal(conf, was, (was + Elements(toAdd)) - Elements(toDel))
    ensures EipSettled(conf, was) && conf.reuseLBID == "" ==> toAdd == [] && toDel == []
  {
    if conf.eip.ids.Some? || conf.eip.source.None? || have != [] {
      PlanReaches(conf, have, was);
    } else {
      assert was == {} && was + Elements(toAdd) - Elements(toDel) == {toAdd[0]};
    }
  }

  lemma JoinNeverBare(from: nat, log1: seq<Step>, log2: seq<Step>, id: string, was: set<string>, now: set<string>)
    requires log1 <= log2 && NeverBare(log2, |log1|, id, was, now)
    requires forall i | from <= i < |log1| :: id in log1[i].after.lbs && log1[i].after.lbs[id].eips == was
    ensures NeverBare(log2, from, id, was, now)
  {
  }

  /** What updating the EIPs of load balancer `first.id` has led to: one that is reused is left alone, another
      has the EIPs it is to have. The status read last is the first one when no EIP was changed. */
  ghost predicate EipsUpdated(was: View, now: View, ok: bool, first: LBStatus, last: LBStatus, conf: Config,
                              ids: set<string>) {
    var s, t, id := was.st, now.st, first.id;
    && Went(was, now, SettlingScope(conf), ids)
    && OnlyEips(s, t, id) && id in s.lbs && PoolKept(s, t)
       && NeverBare(now.log, |was.log|, id, s.lbs[id].eips, t.lbs[id].eips)
    && Allocations(now.log, |was.log|, conf.reuseLBID == "" && s.lbs[id].eips == {} && MayAllocate(conf, s))
    && (ok && conf.reuseLBID == "" ==> EipGoal(conf, s.lbs[id].eips, t.lbs[id].eips))
    && (ok ==> EipsObtainable(conf, s, id) && NewHeld(s, t, id))
    && (ok ==> Names(conf, t, last.id) && ListsListeners(t, last.id, last.listeners))
    && (ok ==> (last == first && t == s) || VIPsOf(t, last.id, last.vip))
    && (EipSettled(conf, s.lbs[id].eips) && SourceOK(conf) ==> ok && now == was && last == first)
    && (!ok && SourceOK(conf) && EipsObtainable(conf, s, id) ==> now.faults > was.faults)
  }

  /** Brings the EIPs of an auto-created load balancer in line with the configuration; one that is
      reused is left alone. Afterwards the status of `lb` is read anew. */
  method UpdateLBEip(client: Cloud, conf: Config, lb: LoadBalancer, ghost ids: set<string>) returns (ok: bool)
    requires client.Valid() && Inv(client.st, conf.listenerName, ids) && Names(conf, client.st, lb.status.id)
    requires ListsEips(client.st, lb.status.id, lb.spec.eips)
    requires ListsListeners(client.st, lb.status.id, lb.status.listeners)
    modifies client, lb`status
    ensures client.Valid()
    ensures EipsUpdated(old(client.Now()), client.Now(), ok, old(lb.status), lb.status, conf, ids)
  {
    if conf.reuseLBID != "" { return true; }
    var updated;
    ghost var s := client.st;
    ok, updated := ReconcileEips(client, conf, lb.status.id, lb.spec.eips, SettlingScope(conf), ids);
    InvByListeners(s, client.st, conf.listenerName, ids);
    if !ok { return; }
    if updated {
      ghost var id := lb.status.id;
      assert id in client.st.lbs && client.st.lbs[id].name == conf.lbName && client.st.lbs[id].listed;
      var lbNew := client.GetLoadBalancerByName(conf.lbName);
      if lbNew.Err? {
        assert lbNew.error.ResourceNotFound? ==> lbNew == Err(ResourceNotFound);
        assert lbNew.error.Failed? ==> lbNew == Err(Failed);
        return false;
      }
      lb.status := lbNew.value.status;
    }
  }
}
