/** The cloud behind `QingCloudClientInterface` (pkg/executor/client.go): a state, the
    mutating calls on it, and the client object whose every call may fail. */
module CloudModel {
  import opened Wrappers
  import opened GoStrings
  import opened Apis
  import opened Sequences

  /** Name given to every EIP this controller allocates (`AllocateEIPName`). */
  const ALLOCATED_EIP_NAME := "k8s_lb_allocate_eip"
  /** Private addresses with this prefix belong to the load balancer's own network. */
  const LB_IP_PREFIX := "198.19"
  const DEFAULT_NODE_COUNT := 2
  const PAGE_LIMIT := 100

  /** `listed`: of the account and pending, active or stopped, which is what a search by name shows. */
  datatype LB = LB(
    name: string, nodeCount: int, privateIPs: seq<string>, eips: set<string>, pending: bool, listed: bool)

  /** `offered`: of the account and in associate mode 0, so that it counts as available while nobody holds it. */
  datatype EIP = EIP(name: string, addr: string, offered: bool)

  predicate Apart(a: LB, b: LB) {
    a.eips !! b.eips
  }

  datatype State = State(lbs: map<string, LB>, listeners: map<nat, Listener>, eips: map<string, EIP>, next: nat) {

    /** What the cloud guarantees of itself: ids identify, references resolve, two listeners of one
        load balancer never share port and transport, and two load balancers never share an EIP. */
    ghost predicate Valid() {
      ListenersValid() && EipsValid()
    }

    ghost predicate ListenersValid() {
      && (forall k {:trigger ListenerValid(k)} | k in listeners :: ListenerValid(k))
      && (forall k, m {:trigger Clash(listeners[k].spec, listeners[m].spec)} |
            k in listeners && m in listeners && k != m :: !Clash(listeners[k].spec, listeners[m].spec))
    }

    ghost predicate EipsValid() {
      && (forall id | id in lbs :: lbs[id].eips <= eips.Keys)
      && (forall id, other {:trigger Apart(lbs[id], lbs[other])} |
            id in lbs && other in lbs && id != other :: Apart(lbs[id], lbs[other]))
    }

    ghost predicate ListenerValid(k: nat)
      requires k in listeners
    {
      var l := listeners[k];
      && l.id == k && k < next && l.spec.lb in lbs
      && (forall i | 0 <= i < |l.backends| :: l.backends[i].id.listener == k && l.backends[i].id.serial < next)
      && DistinctIds(l.backends)
    }
  }

  ghost predicate DistinctIds(backends: seq<Backend>) {
    forall i, j | 0 <= i < j < |backends| :: backends[i].id != backends[j].id
  }

  /** The transport a listener protocol occupies: http and https run over TCP. */
  function Transport(protocol: string): Protocol {
    if ToLower(protocol) == "udp" then UDP else TCP
  }

  predicate Clash(a: ListenerSpec, b: ListenerSpec) {
    a.lb == b.lb && a.port == b.port && Transport(a.protocol) == Transport(b.protocol)
  }

  // ---------- Mutating calls ----------

  datatype Call =
    | ModifyLB(id: string, nodeCount: Option<int>, privateIP: Option<string>)
    | CreateLB(id: string, name: string, count: Option<int>, ips: seq<string>, eips: seq<string>)
    | DeleteLB(id: string)
    | UpdateLB(id: string)
    | AssociateEIPs(id: string, eips: seq<string>)
    | DissociateEIPs(id: string, eips: seq<string>)
    | AllocateEIP(eip: string, addr: string)
    | ReleaseEIPs(eips: seq<string>)
    | CreateListeners(id: string, specs: seq<ListenerSpec>)
    | DeleteListeners(ids: seq<nat>)
    | CreateBackends(listener: nat, requests: seq<BackendRequest>)
    | DeleteBackends(backends: seq<BackendID>)

  predicate Attached(s: State, eip: string) {
    exists id | id in s.lbs :: eip in s.lbs[id].eips
  }

  /** When the cloud accepts a call. */
  predicate Accepts(s: State, c: Call) {
    match c
    case ModifyLB(id, _, _) => id in s.lbs
    case CreateLB(id, _, _, _, eips) =>
      id !in s.lbs && forall e | e in eips :: e in s.eips && !Attached(s, e)
    case DeleteLB(_) => true
    case UpdateLB(id) => id in s.lbs
    case AssociateEIPs(id, eips) =>
      id in s.lbs && forall e | e in eips :: e in s.eips && (e in s.lbs[id].eips || !Attached(s, e))
    case DissociateEIPs(id, _) => id in s.lbs
    case AllocateEIP(eip, _) => eip !in s.eips
    case ReleaseEIPs(eips) => forall e | e in eips :: !Attached(s, e)
    case CreateListeners(id, specs) =>
      && id in s.lbs
      && (forall i | 0 <= i < |specs| :: specs[i].lb == id)
      && (forall i, k {:trigger Clash(specs[i], s.listeners[k].spec)} |
            0 <= i < |specs| && k in s.listeners :: !Clash(specs[i], s.listeners[k].spec))
      && (forall i, j {:trigger Clash(specs[i], specs[j])} | 0 <= i < j < |specs| :: !Clash(specs[i], specs[j]))
    case DeleteListeners(_) => true
    case CreateBackends(l, requests) => l in s.listeners && forall r | r in requests :: r.port.Some?
    case DeleteBackends(_) => true
  }

  function Touch(lbs: map<string, LB>, touched: set<string>): (r: map<string, LB>)
    ensures r.Keys == lbs.Keys
  {
    map id | id in lbs :: if id in touched then lbs[id].(pending := true) else lbs[id]
  }

  function NewListeners(first: nat, specs: seq<ListenerSpec>): (r: map<nat, Listener>)
    ensures forall k :: k in r <==> first <= k < first + |specs|
    ensures forall k | k in r :: r[k] == Listener(k, specs[k - first], [])
  {
    if specs == [] then map[]
    else
      var n := |specs| - 1;
      NewListeners(first, specs[..n])[first + n := Listener(first + n, specs[n], [])]
  }

  /** The ids the cloud gives to `n` listeners created together. */
  function IdRange(first: nat, n: nat): (r: seq<nat>)
    ensures |r| == n
    ensures forall i | 0 <= i < n :: r[i] == first + i
  {
    seq(n, i => first + i)
  }

  function NewBackends(listener: nat, first: nat, requests: seq<BackendRequest>): (r: seq<Backend>)
    requires forall q | q in requests :: q.port.Some?
    ensures |r| == |requests|
  {
    seq(|requests|, i requires 0 <= i < |requests| =>
      Backend(BackendID(listener, first + i), requests[i].name, requests[i].port.value, requests[i].resource))
  }

  function NotIn(ids: seq<BackendID>): Backend -> bool {
    (b: Backend) => b.id !in ids
  }

  /** The backends left once those with the given ids are gone, in their order. */
  function Without(backends: seq<Backend>, ids: seq<BackendID>): seq<Backend> {
    Pick(backends, NotIn(ids))
  }

  /** The state after an accepted call. */
  function Apply(s: State, c: Call): State
    requires Accepts(s, c)
  {
    match c
    case ModifyLB(id, nodeCount, ip) =>
      var lb := s.lbs[id];
      s.(lbs := s.lbs[id := lb.(
           nodeCount := if nodeCount.Some? then nodeCount.value else lb.nodeCount,
           privateIPs := if ip.Some? then [ip.value] else lb.privateIPs,
           pending := true)])
    case CreateLB(id, name, count, ips, eips) =>
      var nodeCount := if count.Some? then count.value else DEFAULT_NODE_COUNT;
      s.(lbs := s.lbs[id := LB(name, nodeCount, ips, set e | e in eips, false, true)])
    case DeleteLB(id) =>
      s.(lbs := s.lbs - {id}, listeners := map k | k in s.listeners && s.listeners[k].spec.lb != id :: s.listeners[k])
    case UpdateLB(id) => s.(lbs := s.lbs[id := s.lbs[id].(pending := false)])
    case AssociateEIPs(id, eips) => s.(lbs := s.lbs[id := s.lbs[id].(eips := s.lbs[id].eips + set e | e in eips)])
    case DissociateEIPs(id, eips) => s.(lbs := s.lbs[id := s.lbs[id].(eips := s.lbs[id].eips - set e | e in eips)])
    case AllocateEIP(eip, addr) => s.(eips := s.eips[eip := EIP(ALLOCATED_EIP_NAME, addr, true)])
    case ReleaseEIPs(eips) => s.(eips := s.eips - set e | e in eips)
    case CreateListeners(id, specs) =>
      s.(listeners := s.listeners + NewListeners(s.next, specs), lbs := Touch(s.lbs, {id}), next := s.next + |specs|)
    case DeleteListeners(ids) =>
      s.(listeners := map k | k in s.listeners && k !in ids :: s.listeners[k],
         lbs := Touch(s.lbs, set k | k in s.listeners && k in ids :: s.listeners[k].spec.lb))
    case CreateBackends(l, requests) =>
      var was := s.listeners[l];
      s.(listeners := s.listeners[l := was.(backends := was.backends + NewBackends(l, s.next, requests))],
         lbs := Touch(s.lbs, {was.spec.lb}), next := s.next + |requests|)
    case DeleteBackends(ids) =>
      s.(listeners := map k | k in s.listeners :: s.listeners[k].(backends := Without(s.listeners[k].backends, ids)),
         lbs := Touch(s.lbs, set b | b in ids && b.listener in s.listeners :: s.listeners[b.listener].spec.lb))
  }

  // ---------- Integrity ----------

  /** Every accepted call keeps the cloud's own guarantees. */
  lemma ApplyValid(s: State, c: Call)
    requires s.Valid() && Accepts(s, c)
    ensures Apply(s, c).Valid()
  {
    EipsStayValid(s, c);
    match c
    case CreateListeners(id, specs) => CreateListenersValid(s, id, specs);
    case CreateBackends(l, requests) => CreateBackendsValid(s, l, requests);
    case DeleteBackends(ids) => DeleteBackendsValid(s, ids);
    case DeleteListeners(ids) => DeleteListenersValid(s, ids);
    case DeleteLB(id) => DeleteLBValid(s, id);
    case _ => LBCallValid(s, c);
  }

  lemma DeleteListenersValid(s: State, ids: seq<nat>)
    requires s.Valid()
    ensures Apply(s, DeleteListeners(ids)).ListenersValid()
  {
    var t := Apply(s, DeleteListeners(ids));
    forall k | k in t.listeners ensures t.ListenerValid(k) { assert s.ListenerValid(k); }
  }

  lemma DeleteLBValid(s: State, id: string)
    requires s.Valid()
    ensures Apply(s, DeleteLB(id)).ListenersValid()
  {
    var t := Apply(s, DeleteLB(id));
    forall k | k in t.listeners ensures t.ListenerValid(k) { assert s.ListenerValid(k); }
  }

  /** The calls that leave the listeners alone. */
  lemma LBCallValid(s: State, c: Call)
    requires s.Valid() && Accepts(s, c)
    requires c.ModifyLB? || c.CreateLB? || c.UpdateLB? || c.AssociateEIPs? || c.DissociateEIPs? || c.AllocateEIP?
             || c.ReleaseEIPs?
    ensures Apply(s, c).ListenersValid()
  {
    var t := Apply(s, c);
    assert t.listeners == s.listeners && t.next == s.next && s.lbs.Keys <= t.lbs.Keys;
    forall k | k in t.listeners ensures t.ListenerValid(k) { assert s.ListenerValid(k); }
  }

  lemma EipsStayValid(s: State, c: Call)
    requires s.Valid() && Accepts(s, c)
    ensures Apply(s, c).EipsValid()
  {
    var t := Apply(s, c);
    if c.ReleaseEIPs? {
      forall id, e | id in s.lbs && e in s.lbs[id].eips ensures e !in c.eips {
        assert Attached(s, e);
      }
    }
    forall id, other | id in t.lbs && other in t.lbs && id != other ensures Apart(t.lbs[id], t.lbs[other]) {
      EipsStayApart(s, c, id, other);
    }
  }

  /** An EIP is given only to a load balancer that has it already, or when nobody has it. */
  lemma EipsStayApart(s: State, c: Call, id: string, other: string)
    requires s.Valid() && Accepts(s, c) && id != other
    requires id in Apply(s, c).lbs && other in Apply(s, c).lbs
    ensures Apart(Apply(s, c).lbs[id], Apply(s, c).lbs[other])
  {
    if id in s.lbs && other in s.lbs { assert Apart(s.lbs[id], s.lbs[other]); }
    if c.AssociateEIPs? || c.CreateLB? {
      forall e, x | e in c.eips && x in s.lbs && x != c.id ensures e !in s.lbs[x].eips {
        if c.AssociateEIPs? && e in s.lbs[c.id].eips {
          assert Apart(s.lbs[c.id], s.lbs[x]);
        } else {
          assert !Attached(s, e);
        }
      }
    }
  }

  lemma CreateListenersValid(s: State, id: string, specs: seq<ListenerSpec>)
    requires s.Valid() && Accepts(s, CreateListeners(id, specs))
    ensures Apply(s, CreateListeners(id, specs)).ListenersValid()
  {
    ListenersJoinValid(s, Apply(s, CreateListeners(id, specs)), id, specs, NewListeners(s.next, specs));
  }

  lemma ListenersJoinValid(s: State, t: State, id: string, specs: seq<ListenerSpec>, added: map<nat, Listener>)
    requires s.Valid() && Accepts(s, CreateListeners(id, specs))
    requires forall x :: x in added <==> s.next <= x < s.next + |specs|
    requires forall x | x in added :: added[x] == Listener(x, specs[x - s.next], [])
    requires t.listeners == s.listeners + added && t.next == s.next + |specs| && t.lbs.Keys == s.lbs.Keys
    ensures t.ListenersValid()
  {
    forall k | k in t.listeners ensures t.ListenerValid(k) {
      if k in s.listeners { assert s.ListenerValid(k); }
    }
    forall k, m | k in t.listeners && m in t.listeners && k != m
      ensures !Clash(t.listeners[k].spec, t.listeners[m].spec)
    {
      NoNewClash(s, id, specs, added, k, m);
    }
  }

  lemma NoNewClash(s: State, id: string, specs: seq<ListenerSpec>, added: map<nat, Listener>, k: nat, m: nat)
    requires s.Valid() && Accepts(s, CreateListeners(id, specs)) && k != m
    requires forall x :: x in added <==> s.next <= x < s.next + |specs|
    requires forall x | x in added :: added[x] == Listener(x, specs[x - s.next], [])
    requires k in s.listeners + added && m in s.listeners + added
    ensures !Clash((s.listeners + added)[k].spec, (s.listeners + added)[m].spec)
  {
    if k in added && m in added {
      var i, j := k - s.next, m - s.next;
      assert if i < j then !Clash(specs[i], specs[j]) else !Clash(specs[j], specs[i]);
    } else if k in added {
      assert s.ListenerValid(m) && !Clash(specs[k - s.next], s.listeners[m].spec);
    } else if m in added {
      assert s.ListenerValid(k) && !Clash(specs[m - s.next], s.listeners[k].spec);
    }
  }

  lemma CreateBackendsValid(s: State, l: nat, requests: seq<BackendRequest>)
    requires s.Valid() && Accepts(s, CreateBackends(l, requests))
    ensures Apply(s, CreateBackends(l, requests)).ListenersValid()
  {
    var t := Apply(s, CreateBackends(l, requests));
    forall k | k in t.listeners ensures t.ListenerValid(k) {
      assert s.ListenerValid(k);
    }
  }

  lemma DeleteBackendsValid(s: State, ids: seq<BackendID>)
    requires s.Valid()
    ensures Apply(s, DeleteBackends(ids)).ListenersValid()
  {
    var t := Apply(s, DeleteBackends(ids));
    forall k | k in t.listeners ensures t.ListenerValid(k) {
      assert s.ListenerValid(k);
      var b := s.listeners[k].backends;
      var r := Without(b, ids);
      PickMembers(b, NotIn(ids));
      forall i | 0 <= i < |r| ensures r[i].id.listener == k && r[i].id.serial < t.next {
        assert r[i] in r;
      }
      forall i, j | 0 <= i < j < |r| ensures r[i].id != r[j].id {
        PickOrder(b, NotIn(ids), i, j);
      }
    }
  }

  // ---------- The client ----------

  /** One mutating call that was issued, with the states around it. */
  datatype Step = Step(call: Call, before: State, after: State)

  /** How the network treats a call: done, refused, or done with its answer lost. */
  datatype Fate = Done | Refused | Lost

  /** A call either took effect or left the state as it was; success means it took effect. */
  ghost predicate Outcome(s: State, c: Call, ok: bool, t: State) {
    || (Accepts(s, c) && t == Apply(s, c))
    || (!ok && t == s)
  }

  /** Step i is an outcome of its call, and starts where the step before ended. */
  ghost predicate StepOK(log: seq<Step>, i: int)
    requires 0 <= i < |log|
  {
    && Outcome(log[i].before, log[i].call, false, log[i].after)
    && (i > 0 ==> log[i - 1].after == log[i].before)
  }

  /** The steps of a log lead from the first state to the present one. */
  ghost predicate Chained(origin: State, log: seq<Step>, now: State) {
    && (forall i {:trigger StepOK(log, i)} | 0 <= i < |log| :: StepOK(log, i))
    && (if log == [] then now == origin else log[0].before == origin && log[|log| - 1].after == now)
  }

  lemma ChainedSnoc(origin: State, log: seq<Step>, step: Step)
    requires Chained(origin, log, step.before) && Outcome(step.before, step.call, false, step.after)
    ensures Chained(origin, log + [step], step.after)
  {
    var longer := log + [step];
    forall i | 0 <= i < |longer| ensures StepOK(longer, i) {
      if i < |log| { assert StepOK(log, i); }
    }
  }

  /** The state at an earlier length of the log is where the later steps start. */
  lemma ChainedAt(origin: State, log0: seq<Step>, s: State, log: seq<Step>, now: State)
    requires log0 <= log && Chained(origin, log0, s) && Chained(origin, log, now)
    ensures if |log0| < |log| then log[|log0|].before == s else now == s
  {
    if |log0| < |log| { assert StepOK(log, |log0|); }
  }

  /** The leading private addresses outside the load balancer's own network. */
  function PrivateVIPs(ips: seq<string>): seq<string> {
    if ips == [] || HasPrefix(ips[0], LB_IP_PREFIX) then [] else [ips[0]] + PrivateVIPs(ips[1..])
  }

  /** They are those before the first with the load balancer's own prefix. */
  lemma {:induction false} PrivateVIPsIff(ips: seq<string>, vips: seq<string>)
    ensures vips == PrivateVIPs(ips) <==>
            && vips <= ips && (forall v | v in vips :: !HasPrefix(v, "198.19"))
            && (|vips| < |ips| ==> HasPrefix(ips[|vips|], "198.19"))
  {
    if ips != [] && !HasPrefix(ips[0], "198.19") {
      if vips != [] {
        PrivateVIPsIff(ips[1..], vips[1..]);
        assert vips == [vips[0]] + vips[1..];
        assert forall v :: v in vips <==> v == vips[0] || v in vips[1..];
      }
    } else if vips != [] && ips != [] {
      assert vips[0] in vips;
    }
  }

  ghost predicate HasVIP(lb: LB) {
    PrivateVIPs(lb.privateIPs) != [] || lb.eips != {}
  }

  /** The addresses load balancer `id` answers at: first its private ones, then those of its EIPs. */
  ghost predicate VIPsOf(s: State, id: string, vip: seq<string>) {
    && id in s.lbs && s.lbs[id].eips <= s.eips.Keys
    && PrivateVIPs(s.lbs[id].privateIPs) <= vip
    && var rest := vip[|PrivateVIPs(s.lbs[id].privateIPs)|..];
       && |rest| == |s.lbs[id].eips|
       && forall a :: a in rest <==> exists e :: e in s.lbs[id].eips && s.eips[e].addr == a
  }

  /** There are such addresses exactly when the load balancer has some. */
  lemma VIPsThere(s: State, id: string, vip: seq<string>)
    requires VIPsOf(s, id, vip)
    ensures vip != [] <==> HasVIP(s.lbs[id])
  {
  }

  /** The private addresses, then one for each EIP, are such addresses. */
  lemma AddressesRead(s: State, id: string, eips: seq<string>, more: seq<string>)
    requires id in s.lbs && s.lbs[id].eips <= s.eips.Keys
    requires Distinct(eips) && forall e :: e in eips <==> e in s.lbs[id].eips
    requires |more| == |eips| && forall j | 0 <= j < |eips| :: eips[j] in s.eips && more[j] == s.eips[eips[j]].addr
    ensures VIPsOf(s, id, PrivateVIPs(s.lbs[id].privateIPs) + more)
  {
    var own := PrivateVIPs(s.lbs[id].privateIPs);
    assert (own + more)[|own|..] == more;
    DistinctCount(eips);
    assert Elements(eips) == s.lbs[id].eips;
    forall e | e in s.lbs[id].eips ensures s.eips[e].addr in more {
      var j :| 0 <= j < |eips| && eips[j] == e;
      assert more[j] == s.eips[e].addr;
    }
    forall a | a in more ensures exists e :: e in s.lbs[id].eips && s.eips[e].addr == a {
      var j :| 0 <= j < |more| && more[j] == a;
      assert eips[j] in eips;
    }
  }

  /** `ls` lists exactly the listeners of load balancer `id`, each once. */
  ghost predicate ListsListeners(s: State, id: string, ls: seq<Listener>) {
    && (forall i | 0 <= i < |ls| :: ls[i].id in s.listeners && s.listeners[ls[i].id] == ls[i] && ls[i].spec.lb == id)
    && (forall k | k in s.listeners && s.listeners[k].spec.lb == id :: Present(ls, k))
    && DistinctListeners(ls)
  }

  predicate Present(ls: seq<Listener>, k: nat) {
    exists i | 0 <= i < |ls| :: ls[i].id == k
  }

  /** `ls` is what one page of the listeners `ids` reads as. */
  ghost predicate Fetched(s: State, ids: seq<nat>, ls: seq<Listener>) {
    && (forall i | 0 <= i < |ls| :: ls[i].id in ids && ls[i].id in s.listeners && s.listeners[ls[i].id] == ls[i])
    && (|ids| <= PAGE_LIMIT ==> forall k | k in ids && k in s.listeners :: Present(ls, k))
    && DistinctListeners(ls)
  }

  ghost predicate DistinctListeners(ls: seq<Listener>) {
    forall i, j | 0 <= i < j < |ls| :: ls[i].id != ls[j].id
  }

  ghost predicate SpecOf(s: State, id: string, spec: LBSpec) {
    && id in s.lbs
    && spec.name == s.lbs[id].name && spec.nodeCount == s.lbs[id].nodeCount
    && spec.privateIPs == s.lbs[id].privateIPs
    && (forall e :: e in spec.eips <==> e in s.lbs[id].eips)
  }

  ghost predicate StatusOf(s: State, id: string, status: LBStatus) {
    && id in s.lbs
    && status.id == id
    && VIPsOf(s, id, status.vip)
    && (forall e :: e in status.createdEIPs <==>
                      e in s.lbs[id].eips && e in s.eips && s.eips[e].name == ALLOCATED_EIP_NAME)
    && ListsListeners(s, id, status.listeners)
  }

  ghost predicate SnapshotOf(s: State, id: string, spec: LBSpec, status: LBStatus) {
    SpecOf(s, id, spec) && StatusOf(s, id, status)
  }

  /** What can be seen of a client at one moment. */
  datatype View = View(st: State, log: seq<Step>, faults: nat)

  /** Nothing was called in between, and only a fault can be to blame for a failure. */
  ghost predicate Quiet(was: View, now: View, ok: bool) {
    now.log == was.log && now.st == was.st && (ok || now.faults > was.faults)
  }

  class Cloud {
    var st: State
    /** The state before the first call. */
    ghost const origin: State
    /** Every mutating call issued so far. */
    ghost var log: seq<Step>
    /** How many calls the network failed so far. */
    ghost var faults: nat

    ghost predicate Valid()
      reads `st, `log
    {
      st.Valid() && Chained(origin, log, st)
    }

    ghost function Now(): View
      reads this
    {
      View(st, log, faults)
    }

    /** Issues one mutating call. Without a fault it fails only when the cloud does not accept it. */
    method Invoke(call: Call) returns (ok: bool)
      requires Valid()
      modifies this
      ensures Valid()
      ensures log == old(log) + [Step(call, old(st), st)]
      ensures Outcome(old(st), call, ok, st)
      ensures faults >= old(faults)
      ensures !ok && faults == old(faults) ==> !Accepts(old(st), call)
    {
      ghost var before := st;
      var fate: Fate := *;
      ok := false;
      if fate.Refused? {
        faults := faults + 1;
      } else if Accepts(st, call) {
        ApplyValid(st, call);
        st := Apply(st, call);
        ok := fate.Done?;
        faults := if ok then faults else faults + 1;
      }
      ChainedSnoc(origin, log, Step(call, before, st));
      log := log + [Step(call, before, st)];
    }

    /** A read that fails only by a fault. */
    method Readable() returns (ok: bool)
      modifies this`faults
      ensures faults >= old(faults)
      ensures !ok ==> faults > old(faults)
    {
      ok := *;
      if !ok { faults := faults + 1; }
    }

    method ListenersOf(id: string) returns (ls: seq<Listener>)
      requires Valid()
      ensures ListsListeners(st, id, ls)
    {
      var own := set k | k in st.listeners && st.listeners[k].spec.lb == id;
      var ids := Enumerate(own);
      ls := [];
      for i := 0 to |ids|
        invariant |ls| == i
        invariant forall j | 0 <= j < i :: ids[j] in own && ls[j] == st.listeners[ids[j]] && ls[j].id == ids[j]
      {
        assert ids[i] in ids && ids[i] in own;
        assert st.ListenerValid(ids[i]);
        ls := ls + [st.listeners[ids[i]]];
      }
      forall k | k in st.listeners && st.listeners[k].spec.lb == id
        ensures Present(ls, k)
      {
        assert k in own && k in ids;
        var i :| 0 <= i < |ids| && ids[i] == k;
        assert ls[i].id == k;
      }
    }

    /** Takes private addresses until one is of the load balancer's own network. */
    method LeadingVIPs(ips: seq<string>) returns (vips: seq<string>)
      ensures vips == PrivateVIPs(ips)
      ensures vips <= ips && (forall v | v in vips :: !HasPrefix(v, "198.19"))
      ensures |vips| < |ips| ==> HasPrefix(ips[|vips|], "198.19")
    {
      vips := [];
      var i := 0;
      while i < |ips|
        invariant i <= |ips| && vips == ips[..i]
        invariant forall v | v in vips :: !HasPrefix(v, "198.19")
      {
        if HasPrefix(ips[i], LB_IP_PREFIX) { break; }
        vips := vips + [ips[i]];
        i := i + 1;
      }
      PrivateVIPsIff(ips, vips);
    }

    /** The addresses of load balancer `id`, and which of its EIPs the controller allocated. */
    method Addresses(id: string, eips: seq<string>) returns (vip: seq<string>, created: seq<string>)
      requires id in st.lbs && st.lbs[id].eips <= st.eips.Keys
      requires Distinct(eips) && forall e :: e in eips <==> e in st.lbs[id].eips
      ensures VIPsOf(st, id, vip)
      ensures forall e :: e in created <==> e in st.lbs[id].eips && st.eips[e].name == ALLOCATED_EIP_NAME
    {
      var own := LeadingVIPs(st.lbs[id].privateIPs);
      var more: seq<string> := [];
      created := [];
      for i := 0 to |eips|
        invariant |more| == i
        invariant forall j | 0 <= j < i :: eips[j] in st.eips && more[j] == st.eips[eips[j]].addr
        invariant forall e :: e in created <==> e in eips[..i] && st.eips[e].name == ALLOCATED_EIP_NAME
      {
        assert eips[i] in eips && eips[i] in st.eips;
        assert eips[..i + 1] == eips[..i] + [eips[i]];
        more := more + [st.eips[eips[i]].addr];
        if st.eips[eips[i]].name == ALLOCATED_EIP_NAME {
          created := created + [eips[i]];
        }
      }
      assert eips[..|eips|] == eips;
      vip := own + more;
      AddressesRead(st, id, eips, more);
    }

    method Snapshot(id: string) returns (lb: LoadBalancer)
      requires Valid() && id in st.lbs
      ensures fresh(lb) && SnapshotOf(st, id, lb.spec, lb.status)
    {
      var lbState := st.lbs[id];
      var eips := Enumerate(lbState.eips);
      var listeners := ListenersOf(id);
      var vip, created := Addresses(id, eips);
      lb := new LoadBalancer(LBSpec(lbState.name, lbState.nodeCount, lbState.privateIPs, eips),
                             LBStatus(id, vip, created, listeners));
    }

    method GetLoadBalancerByID(id: string) returns (r: Result<LoadBalancer>)
      requires Valid()
      modifies this`faults
      ensures r.Ok? ==> fresh(r.value) && SnapshotOf(st, id, r.value.spec, r.value.status)
      ensures r == Err(ResourceNotFound) ==> id !in st.lbs
      ensures faults >= old(faults)
      ensures r == Err(Failed) ==> faults > old(faults)
    {
      var ok := Readable();
      if !ok { return Err(Failed); }
      if id !in st.lbs { return Err(ResourceNotFound); }
      var lb := Snapshot(id);
      return Ok(lb);
    }

    method GetLoadBalancerByName(name: string) returns (r: Result<LoadBalancer>)
      requires Valid()
      modifies this`faults
      ensures r.Ok? ==> fresh(r.value) && r.value.spec.name == name
                        && SnapshotOf(st, r.value.status.id, r.value.spec, r.value.status)
      ensures r.Ok? ==> st.lbs[r.value.status.id].listed
      ensures r == Err(ResourceNotFound) ==> forall id | id in st.lbs && st.lbs[id].listed :: st.lbs[id].name != name
      ensures faults >= old(faults)
      ensures r == Err(Failed) ==> faults > old(faults)
    {
      var ok := Readable();
      if !ok { return Err(Failed); }
      var named := set id | id in st.lbs && st.lbs[id].listed && st.lbs[id].name == name;
      if named == {} {
        assert forall id | id in st.lbs && st.lbs[id].listed && st.lbs[id].name == name :: id in named;
        return Err(ResourceNotFound);
      }
      var id :| id in named;
      var lb := Snapshot(id);
      return Ok(lb);
    }

    /** The listeners with the given ids, at most one page of them. */
    method GetListeners(ids: seq<nat>) returns (r: Result<seq<Listener>>)
      requires Valid()
      modifies this`faults
      ensures r.Ok? ==> Fetched(st, ids, r.value)
      ensures faults >= old(faults)
      ensures r.Err? ==> faults > old(faults)
    {
      var ok := Readable();
      if !ok { return Err(Failed); }
      var found := Find(ids);
      return Ok(found);
    }

    method Find(ids: seq<nat>) returns (found: seq<Listener>)
      requires Valid()
      ensures Fetched(st, ids, found)
    {
      found := [];
      for i := 0 to |ids|
        invariant |found| <= i
        invariant forall j | 0 <= j < |found| :: found[j].id in ids && found[j].id in st.listeners
                                                 && st.listeners[found[j].id] == found[j]
        invariant DistinctListeners(found)
        invariant i <= PAGE_LIMIT ==> forall j | 0 <= j < i && ids[j] in st.listeners :: Present(found, ids[j])
      {
        var present := exists j | 0 <= j < |found| :: found[j].id == ids[i];
        if ids[i] in st.listeners && |found| < PAGE_LIMIT && !present {
          assert st.ListenerValid(ids[i]);
          ghost var was := found;
          found := found + [st.listeners[ids[i]]];
          forall k | Present(was, k) ensures Present(found, k) {
            var j :| 0 <= j < |was| && was[j].id == k;
            assert found[j].id == k;
          }
          assert found[|was|].id == ids[i];
        }
      }
    }

    /** Allocates an EIP under this controller's own name. */
    method AllocateEIP() returns (r: Result<string>, ghost eip: string, ghost addr: string)
      requires Valid()
      modifies this
      ensures Valid()
      ensures || (log == old(log) && st == old(st) && r.Err?)
              || (&& log == old(log) + [Step(Call.AllocateEIP(eip, addr), old(st), st)]
                  && Outcome(old(st), Call.AllocateEIP(eip, addr), r.Ok?, st))
      ensures r.Ok? ==> r.value == eip
      ensures faults >= old(faults)
      ensures r.Err? ==> faults > old(faults)
    {
      var id: string, address: string := *, *;
      r, eip, addr := Err(Failed), id, address;
      if id in st.eips {
        faults := faults + 1;
        return;
      }
      var ok := Invoke(Call.AllocateEIP(id, address));
      if ok { r := Ok(id); }
    }

    /** The EIPs of the pool that are offered and that no load balancer holds. */
    method GetAvaliableEIPs() returns (r: Result<seq<string>>)
      requires Valid()
      modifies this`faults
      ensures r.Ok? ==> forall e :: e in r.value <==> e in st.eips && st.eips[e].offered && !Attached(st, e)
      ensures faults >= old(faults)
      ensures r.Err? ==> faults > old(faults)
    {
      var ok := Readable();
      if !ok { return Err(Failed); }
      var free := set e | e in st.eips && st.eips[e].offered && !Attached(st, e);
      var eips := Enumerate(free);
      return Ok(eips);
    }

    /** Creates listeners and reads them back; the read may fail after the creation took effect. */
    method CreateListener(specs: seq<ListenerSpec>) returns (r: Result<seq<Listener>>)
      requires Valid() && specs != []
      modifies this
      ensures Valid()
      ensures log == old(log) + [Step(CreateListeners(specs[0].lb, specs), old(st), st)]
      ensures Outcome(old(st), CreateListeners(specs[0].lb, specs), r.Ok?, st)
      ensures r.Ok? ==> Fetched(st, IdRange(old(st).next, |specs|), r.value)
      ensures faults >= old(faults)
      ensures r.Err? && faults == old(faults) ==> !Accepts(old(st), CreateListeners(specs[0].lb, specs))
    {
      var first := st.next;
      var ok := Invoke(CreateListeners(specs[0].lb, specs));
      if !ok { return Err(Failed); }
      r := GetListeners(IdRange(first, |specs|));
    }

    /** Creates a load balancer and reads it back. Without a network or an EIP to attach it to, nothing is
        asked of the cloud. Where no private address is asked for, the cloud gives it some. */
    method CreateLB(name: string, count: Option<int>, vxnet: Option<string>, ip: Option<string>, eips: seq<string>)
      returns (r: Result<LoadBalancer>, ghost id: string, ghost ips: seq<string>)
      requires Valid()
      modifies this
      ensures Valid()
      ensures ip.Some? ==> ips == [ip.value]
      ensures || (log == old(log) && st == old(st) && r.Err?)
              || (&& log == old(log) + [Step(Call.CreateLB(id, name, count, ips, eips), old(st), st)]
                  && Outcome(old(st), Call.CreateLB(id, name, count, ips, eips), r.Ok?, st))
      ensures r.Ok? ==> fresh(r.value) && SnapshotOf(st, id, r.value.spec, r.value.status)
      ensures faults >= old(faults)
      ensures vxnet.None? && eips == [] ==> r.Err? && log == old(log) && st == old(st) && faults == old(faults)
      ensures r.Err? && (vxnet.Some? || eips != [])
              && (forall e | e in eips :: e in old(st).eips && !Attached(old(st), e)) ==>
                faults > old(faults)
    {
      var newId: string, given: seq<string> := *, *;
      var addresses := if ip.Some? then [ip.value] else given;
      r, id, ips := Err(Failed), newId, addresses;
      if vxnet.None? && eips == [] { return; }
      if newId in st.lbs {
        faults := faults + 1;
        return;
      }
      var ok := Invoke(Call.CreateLB(newId, name, count, addresses, eips));
      if ok {
        var lb := Snapshot(newId);
        r := Ok(lb);
      }
    }

    /** Adds backends to one listener; an empty request is no call. */
    method CreateBackends(requests: seq<BackendRequest>) returns (ok: bool)
      requires Valid()
      modifies this
      ensures Valid()
      ensures requests == [] ==> ok && log == old(log) && st == old(st) && faults == old(faults)
      ensures requests != [] ==>
                && log == old(log) + [Step(Call.CreateBackends(requests[0].listener, requests), old(st), st)]
                && Outcome(old(st), Call.CreateBackends(requests[0].listener, requests), ok, st)
                && faults >= old(faults)
                && (!ok && faults == old(faults) ==>
                    !Accepts(old(st), Call.CreateBackends(requests[0].listener, requests)))
    {
      if requests == [] { return true; }
      ok := Invoke(Call.CreateBackends(requests[0].listener, requests));
    }
  }
}
