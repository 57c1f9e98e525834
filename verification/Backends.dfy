/** Backend reconciliation: which nodes stand behind a listener, with and without a limit on
    their number (pkg/qingcloud/loadbalancer_utils.go, pkg/qingcloud/qingcloud_utils.go). */
module Backends {
  import opened Wrappers
  import opened GoStrings
  import opened Apis
  import opened Sequences
  import opened Random

  /** `nodeToInstanceIDs`: the annotation if there is one, else the node's name. */
  function InstanceID(n: Node): string {
    if n.instance.Some? then n.instance.value else n.name
  }

  /** This is the id of the node: what its annotation says or, without one, its name. */
  ghost predicate Identifies(id: string, n: Node) {
    (n.instance.Some? ==> id == n.instance.value) && (n.instance.None? ==> id == n.name)
  }

  lemma IdentifiesIff(id: string, n: Node)
    ensures id == InstanceID(n) <==> Identifies(id, n)
  {
  }

  predicate NodesHasBackend(backend: string, nodes: seq<Node>) {
    exists i | 0 <= i < |nodes| :: Contains(backend, InstanceID(nodes[i]))
  }

  predicate BackendsHasNode(n: Node, backends: seq<Backend>) {
    exists i | 0 <= i < |backends| :: Contains(backends[i].name, InstanceID(n))
  }

  // ---------- The port of a backend ----------

  /** A listener protocol belongs to a service port of this protocol. */
  predicate Carries(listenerProtocol: string, p: Protocol) {
    || (p == TCP && (listenerProtocol == "http" || listenerProtocol == "https"))
    || EqualFold(listenerProtocol, p.Name())
  }

  /** The first service port a listener with this protocol and port belongs to. */
  function PortFound(protocol: string, port: int, ports: seq<ServicePort>): Option<ServicePort> {
    if ports == [] then None
    else if ports[0].port == port && Carries(protocol, ports[0].protocol) then Some(ports[0])
    else PortFound(protocol, port, ports[1..])
  }

  /** The node port for new backends: that of the backends present, else that of the service port. */
  function NodePortFor(l: Listener, ports: seq<ServicePort>): Option<int> {
    if l.backends != [] then Some(l.backends[0].port)
    else
      var found := PortFound(l.spec.protocol, l.spec.port, ports);
      if found.Some? then Some(found.value.nodePort) else None
  }

  lemma LowerLiterals()
    ensures ToLower("TCP") == "tcp" == ToLower("tcp")
    ensures ToLower("UDP") == "udp" == ToLower("udp")
    ensures ToLower("SCTP") == "sctp" && ToLower("http") == "http" && ToLower("https") == "https"
  {
  }

  /** Writing "tcp" over http or https changes no answer. */
  lemma CarriesAsTcp(p: Protocol)
    ensures Carries("tcp", p) == Carries("http", p) == Carries("https", p) == (p == TCP)
  {
    LowerLiterals();
  }

  lemma {:induction false} PortFoundAsTcp(protocol: string, port: int, ports: seq<ServicePort>)
    requires protocol == "http" || protocol == "https"
    ensures PortFound("tcp", port, ports) == PortFound(protocol, port, ports)
  {
    if ports != [] {
      CarriesAsTcp(ports[0].protocol);
      PortFoundAsTcp(protocol, port, ports[1..]);
    }
  }

  /** Looks the node port up; on the way it may overwrite the protocol of the listener it was given. */
  method GetLoadBalancerListenerNodePort(listener: LoadBalancerListener, ports: seq<ServicePort>)
    returns (r: Option<int>)
    modifies listener
    ensures r == NodePortFor(old(listener.Value()), ports)
    ensures NodePortFor(listener.Value(), ports) == r
  {
    if |listener.backends| > 0 {
      return Some(listener.backends[0].port);
    }
    ghost var protocol, port := listener.spec.protocol, listener.spec.port;
    for i := 0 to |ports|
      invariant listener.spec.port == port
      invariant PortFound(protocol, port, ports) == PortFound(protocol, port, ports[i..])
      invariant listener.spec.protocol == protocol
             || (listener.spec.protocol == "tcp" && (protocol == "http" || protocol == "https"))
    {
      CarriesAsTcp(ports[i].protocol);
      if (listener.spec.protocol == "https" || listener.spec.protocol == "http") && ports[i].protocol == TCP {
        listener.spec := listener.spec.(protocol := "tcp");
      }
      if listener.spec.protocol != protocol { PortFoundAsTcp(protocol, port, ports); }
      if listener.spec.port == ports[i].port && EqualFold(listener.spec.protocol, ports[i].protocol.Name()) {
        assert ports[i..][0] == ports[i];
        return Some(ports[i].nodePort);
      }
      assert ports[i..][1..] == ports[i + 1..];
    }
    if listener.spec.protocol != protocol { PortFoundAsTcp(protocol, port, ports); }
    return None;
  }

  function Requests(nodes: seq<Node>, listener: nat, port: Option<int>): (r: seq<BackendRequest>)
    ensures |r| == |nodes|
    ensures forall i | 0 <= i < |r| ::
              r[i] == BackendRequest(listener, InstanceID(nodes[i]), port, InstanceID(nodes[i]))
  {
    seq(|nodes|, i requires 0 <= i < |nodes| =>
      BackendRequest(listener, InstanceID(nodes[i]), port, InstanceID(nodes[i])))
  }

  method GenerateLoadBalancerBackends(nodes: seq<Node>, listener: LoadBalancerListener, ports: seq<ServicePort>)
    returns (requests: seq<BackendRequest>)
    modifies listener
    ensures requests == Requests(nodes, listener.id, NodePortFor(old(listener.Value()), ports))
    ensures |requests| == |nodes|
    ensures forall i | 0 <= i < |requests| ::
              && requests[i].listener == listener.id && requests[i].resource == requests[i].name
              && Identifies(requests[i].name, nodes[i])
  {
    requests := [];
    ghost var port := NodePortFor(listener.Value(), ports);
    for i := 0 to |nodes|
      invariant NodePortFor(listener.Value(), ports) == port
      invariant |requests| == i
      invariant forall j | 0 <= j < i ::
                requests[j] == BackendRequest(listener.id, InstanceID(nodes[j]), port, InstanceID(nodes[j]))
    {
      var nodeName := InstanceID(nodes[i]);
      var nodePort := GetLoadBalancerListenerNodePort(listener, ports);
      requests := requests + [BackendRequest(listener.id, nodeName, nodePort, nodeName)];
    }
  }

  // ---------- The differ ----------

  function OffNodes(nodes: seq<Node>): Backend -> bool {
    (b: Backend) => !NodesHasBackend(b.name, nodes)
  }

  function OnNodes(nodes: seq<Node>): Backend -> bool {
    (b: Backend) => NodesHasBackend(b.name, nodes)
  }

  function NotBehind(backends: seq<Backend>): Node -> bool {
    (n: Node) => !BackendsHasNode(n, backends)
  }

  /** Backends on none of the nodes. */
  function Gone(backends: seq<Backend>, nodes: seq<Node>): seq<Backend> {
    Pick(backends, OffNodes(nodes))
  }

  /** Backends on one of the nodes. */
  function Left(backends: seq<Backend>, nodes: seq<Node>): seq<Backend> {
    Pick(backends, OnNodes(nodes))
  }

  /** Nodes without a backend. */
  function Absent(nodes: seq<Node>, backends: seq<Backend>): seq<Node> {
    Pick(nodes, NotBehind(backends))
  }

  function Ids(backends: seq<Backend>): (r: seq<BackendID>)
    ensures |r| == |backends|
    ensures forall i | 0 <= i < |r| :: r[i] == backends[i].id
  {
    seq(|backends|, i requires 0 <= i < |backends| => backends[i].id)
  }

  /** `n` different positions of `items` were picked. */
  ghost predicate IsSample<T(!new)>(picked: seq<T>, items: seq<T>, n: int) {
    |picked| == n && exists idx :: Sample(picked, items, idx)
  }

  /** What the differ may answer. Under a limit it either drops a sample of the backends that
      are on nodes, or adds a sample of the nodes without one. */
  ghost predicate DiffSpec(backends: seq<Backend>, nodes: seq<Node>, limit: Option<nat>, toDelete: seq<BackendID>,
                           toAdd: seq<Node>) {
    var gone, left := Ids(Gone(backends, nodes)), Ids(Left(backends, nodes));
    if limit.None? then toDelete == gone && toAdd == Absent(nodes, backends)
    else if |left| > limit.value then
      |gone| <= |toDelete| && toDelete[..|gone|] == gone && IsSample(toDelete[|gone|..], left, |left| - limit.value)
        && toAdd == []
    else toDelete == gone && IsSample(toAdd, Absent(nodes, backends), limit.value - |left|)
  }

  /** No backend name contains the ids of two of the nodes. */
  ghost predicate OneNodeEach(backends: seq<Backend>, nodes: seq<Node>) {
    forall b, i, j | b in backends && 0 <= i < j < |nodes| ::
      !(Contains(b.name, InstanceID(nodes[i])) && Contains(b.name, InstanceID(nodes[j])))
  }

  /** One more backend takes at most one more node out of the absent ones. */
  lemma {:induction false} AbsentStep(nodes: seq<Node>, backends: seq<Backend>, b: Backend)
    requires OneNodeEach([b], nodes)
    ensures |Absent(nodes, backends + [b])| +
            (if NodesHasBackend(b.name, nodes) then 1 else 0) >= |Absent(nodes, backends)|
  {
    if nodes != [] {
      var k := |nodes| - 1;
      var n, front := nodes[k], nodes[..k];
      assert b in [b];
      assert OneNodeEach([b], front);
      AbsentStep(front, backends, b);
      assert BackendsHasNode(n, backends + [b]) <==>
             Contains(b.name, InstanceID(n)) || BackendsHasNode(n, backends) by {
        assert (backends + [b])[|backends|] == b;
        assert forall i | 0 <= i < |backends| :: (backends + [b])[i] == backends[i];
      }
      if Contains(b.name, InstanceID(n)) {
        assert !NodesHasBackend(b.name, front);
        assert NodesHasBackend(b.name, nodes);
      } else {
        assert NodesHasBackend(b.name, front) ==> NodesHasBackend(b.name, nodes);
      }
    }
  }

  /** Pigeonhole: the nodes that are not behind the listener are at least as many as all nodes
      less the backends that are on nodes. */
  lemma {:induction false} EnoughAbsent(nodes: seq<Node>, backends: seq<Backend>)
    requires OneNodeEach(backends, nodes)
    ensures |Absent(nodes, backends)| + |Left(backends, nodes)| >= |nodes|
  {
    if backends == [] {
      PickAll(nodes, NotBehind([]));
    } else {
      var k := |backends| - 1;
      var b, front := backends[k], backends[..k];
      assert backends == front + [b];
      assert OneNodeEach([b], nodes) by { assert b in backends; }
      assert OneNodeEach(front, nodes);
      EnoughAbsent(nodes, front);
      AbsentStep(nodes, front, b);
    }
  }

  /** The limit of a run: a number of backends, or none. */
  function LimitOf(policy: TrafficPolicy, count: int): Option<nat> {
    if policy == Cluster && count > 0 then Some(count) else None
  }

  /** Splits the ids of the backends into those to delete and those that stay. */
  method SplitBackends(backends: seq<Backend>, nodes: seq<Node>) returns (gone: seq<BackendID>, left: seq<BackendID>)
    ensures gone == Ids(Gone(backends, nodes)) && left == Ids(Left(backends, nodes))
  {
    gone, left := [], [];
    ghost var off, on := OffNodes(nodes), OnNodes(nodes);
    for i := 0 to |backends|
      invariant gone == Ids(Pick(backends[..i], off))
      invariant left == Ids(Pick(backends[..i], on))
    {
      PickStep(backends, i, off);
      PickStep(backends, i, on);
      if NodesHasBackend(backends[i].name, nodes) {
        left := left + [backends[i].id];
      } else {
        gone := gone + [backends[i].id];
      }
    }
    assert backends[..|backends|] == backends;
  }

  method NodesWithout(nodes: seq<Node>, backends: seq<Backend>) returns (absent: seq<Node>)
    ensures absent == Absent(nodes, backends)
  {
    absent := [];
    ghost var keep := NotBehind(backends);
    for i := 0 to |nodes|
      invariant absent == Pick(nodes[..i], keep)
    {
      PickStep(nodes, i, keep);
      if !BackendsHasNode(nodes[i], backends) {
        absent := absent + [nodes[i]];
      }
    }
    assert nodes[..|nodes|] == nodes;
  }

  /** Exactly the backends on none of the nodes go, and exactly the nodes without a backend come. */
  ghost predicate AllMoved(backends: seq<Backend>, nodes: seq<Node>, toDelete: seq<BackendID>, toAdd: seq<Node>) {
    && (forall id :: id in toDelete <==>
          exists i | 0 <= i < |backends| :: backends[i].id == id && !NodesHasBackend(backends[i].name, nodes))
    && (forall n :: n in toAdd <==> n in nodes && !BackendsHasNode(n, backends))
  }

  lemma AllMovedIff(backends: seq<Backend>, nodes: seq<Node>)
    ensures AllMoved(backends, nodes, Ids(Gone(backends, nodes)), Absent(nodes, backends))
  {
    var gone := Gone(backends, nodes);
    PickMembers(nodes, NotBehind(backends));
    PickMembers(backends, OffNodes(nodes));
    forall id | id in Ids(gone)
      ensures exists i | 0 <= i < |backends| :: backends[i].id == id && !NodesHasBackend(backends[i].name, nodes)
    {
      var j :| 0 <= j < |gone| && Ids(gone)[j] == id;
      assert gone[j] in gone && gone[j] in backends;
      var i :| 0 <= i < |backends| && backends[i] == gone[j];
    }
    forall i | 0 <= i < |backends| && !NodesHasBackend(backends[i].name, nodes) ensures backends[i].id in Ids(gone) {
      assert backends[i] in backends && backends[i] in gone;
      var j :| 0 <= j < |gone| && gone[j] == backends[i];
      assert Ids(gone)[j] == backends[i].id;
    }
  }

  /** What to delete from a listener and which nodes to add to it; under Cluster with a number, so that as many
      backends are left. */
  method DiffBackend(reader: Reader, listener: LoadBalancerListener, nodes: seq<Node>, count: int,
                     policy: TrafficPolicy)
    returns (toDelete: seq<BackendID>, toAdd: seq<Node>)
    requires reader.Fair() && 0 <= count
    requires LimitOf(policy, count).Some? ==> count <= |nodes| && OneNodeEach(listener.backends, nodes)
    modifies reader
    ensures DiffSpec(listener.backends, nodes, LimitOf(policy, count), toDelete, toAdd)
    ensures policy == Cluster && count > 0 ==> |listener.backends| - |toDelete| + |toAdd| == count
    ensures policy != Cluster || count == 0 ==> AllMoved(listener.backends, nodes, toDelete, toAdd)
  {
    AllMovedIff(listener.backends, nodes);
    PickCount(listener.backends, OffNodes(nodes), OnNodes(nodes));
    var backendLeftID;
    toDelete, backendLeftID := SplitBackends(listener.backends, nodes);
    toAdd := [];
    if policy == Cluster && count != 0 {
      EnoughAbsent(nodes, listener.backends);
      var backendLeftCount := |listener.backends| - |toDelete|;
      if backendLeftCount > count {
        ghost var gone := toDelete;
        var picked, idx := GetRandomItems(reader, backendLeftID, backendLeftCount - count);
        toDelete := toDelete + picked;
        assert toDelete[..|gone|] == gone && toDelete[|gone|..] == picked;
      } else {
        var nodeLeft := NodesWithout(nodes, listener.backends);
        ghost var idx;
        toAdd, idx := GetRandomItems(reader, nodeLeft, count - backendLeftCount);
      }
    } else {
      toAdd := NodesWithout(nodes, listener.backends);
    }
  }

}
