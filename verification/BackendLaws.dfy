/** Laws of backend reconciliation: what the differ answers, once applied, puts the right nodes
    behind the listener, disturbs no more backends than it must, and is then satisfied. */
module BackendLaws {
  import opened Wrappers
  import opened GoStrings
  import opened Apis
  import opened Sequences
  import opened CloudModel
  import opened Random
  import opened Backends

  // ---------- Ids that can be told apart ----------

  /** No id of the set contains another. */
  ghost predicate Separate(ids: set<string>) {
    forall a, b | a in ids && b in ids && Contains(a, b) :: a == b
  }

  /** Ids of one length are told apart. */
  lemma SameLengthSeparate(ids: set<string>, n: nat)
    requires forall a | a in ids :: |a| == n
    ensures Separate(ids)
  {
    forall a, b | a in ids && b in ids ensures Contains(a, b) <==> a == b { ContainsSameLength(a, b); }
  }

  ghost predicate DistinctNodes(nodes: seq<Node>) {
    forall i, j | 0 <= i < j < |nodes| :: InstanceID(nodes[i]) != InstanceID(nodes[j])
  }

  ghost predicate DistinctNames(backends: seq<Backend>) {
    forall i, j | 0 <= i < j < |backends| :: backends[i].name != backends[j].name
  }

  ghost predicate IsNode(id: string, nodes: seq<Node>) {
    exists i | 0 <= i < |nodes| :: InstanceID(nodes[i]) == id
  }

  ghost predicate HasName(backends: seq<Backend>, name: string) {
    exists i | 0 <= i < |backends| :: backends[i].name == name
  }

  /** All ids in play belong to one set of ids that are told apart. */
  ghost predicate Known(ids: set<string>, backends: seq<Backend>, nodes: seq<Node>) {
    && Separate(ids)
    && (forall i | 0 <= i < |backends| :: backends[i].name in ids)
    && (forall i | 0 <= i < |nodes| :: InstanceID(nodes[i]) in ids)
  }

  /** With such ids, matching by substring is matching by id. */
  lemma MatchingIsEquality(ids: set<string>, backends: seq<Backend>, nodes: seq<Node>)
    requires Known(ids, backends, nodes)
    ensures forall i | 0 <= i < |backends| ::
            NodesHasBackend(backends[i].name, nodes) <==> IsNode(backends[i].name, nodes)
    ensures forall i | 0 <= i < |nodes| ::
            BackendsHasNode(nodes[i], backends) <==> HasName(backends, InstanceID(nodes[i]))
  {
    forall i, j | 0 <= i < |backends| && 0 <= j < |nodes|
      ensures Contains(backends[i].name, InstanceID(nodes[j])) <==> backends[i].name == InstanceID(nodes[j])
    {
      ContainsItself(backends[i].name);
    }
  }

  lemma KnownOneNodeEach(ids: set<string>, backends: seq<Backend>, nodes: seq<Node>)
    requires Known(ids, backends, nodes) && DistinctNodes(nodes)
    ensures OneNodeEach(backends, nodes)
  {
  }

  // ---------- Sampling ----------

  /** The backends of a listener, and the nodes, have different ids, all of them in play. */
  ghost predicate InPlay(ids: set<string>, backends: seq<Backend>, nodes: seq<Node>) {
    && DistinctNames(backends) && DistinctNodes(nodes)
    && (forall i | 0 <= i < |backends| :: backends[i].name in ids)
    && (forall i | 0 <= i < |nodes| :: InstanceID(nodes[i]) in ids)
  }

  /** Under this limit more nodes are to be added than are found to be absent. */
  predicate Starves(backends: seq<Backend>, nodes: seq<Node>, limit: nat) {
    limit - |Left(backends, nodes)| > |Absent(nodes, backends)|
  }

  lemma BothBehind(n: Node, b: Backend)
    ensures BackendsHasNode(n, [b]) <==> Contains(b.name, InstanceID(n))
  {
    assert [b][0] == b;
  }

  /** Two nodes that one backend passes for are both missing from the absent ones. */
  lemma TwoNotAbsent(nodes: seq<Node>, i: nat, j: nat, b: Backend)
    requires i < |nodes| && j < |nodes| && nodes[i] != nodes[j]
    requires Contains(b.name, InstanceID(nodes[i])) && Contains(b.name, InstanceID(nodes[j]))
    ensures |Absent(nodes, [b])| <= |nodes| - 2
  {
    var behind := (n: Node) => BackendsHasNode(n, [b]);
    BothBehind(nodes[i], b);
    BothBehind(nodes[j], b);
    PickCount(nodes, NotBehind([b]), behind);
    PickMembers(nodes, behind);
    TwoMembers(Pick(nodes, behind), nodes[i], nodes[j]);
  }

  lemma TwoMembers(nodes: seq<Node>, m: Node, n: Node)
    requires m in nodes && n in nodes && m != n
    ensures |nodes| >= 2
  {
  }

  /** A single backend that passes for two of the nodes starves the sampling of all of them. */
  lemma ConfusedIdsStarveSampling(nodes: seq<Node>, i: nat, j: nat, b: Backend)
    requires i < |nodes| && j < |nodes| && InstanceID(nodes[i]) != InstanceID(nodes[j])
    requires Contains(b.name, InstanceID(nodes[i])) && Contains(b.name, InstanceID(nodes[j]))
    ensures Starves([b], nodes, |nodes|)
  {
    TwoNotAbsent(nodes, i, j, b);
    PickCount([b], OnNodes(nodes), OffNodes(nodes));
  }

  /** Sampling never asks for more nodes than there are, whatever backends earlier runs left of nodes present or
      gone, whatever nodes there are now and whatever the limit, exactly when no id in play contains another. */
  lemma SamplingSucceedsIff(ids: set<string>)
    ensures Separate(ids) <==>
            forall backends, nodes, limit: nat | InPlay(ids, backends, nodes) && limit <= |nodes| ::
              !Starves(backends, nodes, limit)
  {
    if Separate(ids) {
      forall backends, nodes | InPlay(ids, backends, nodes)
        ensures |Absent(nodes, backends)| + |Left(backends, nodes)| >= |nodes|
      {
        KnownOneNodeEach(ids, backends, nodes);
        EnoughAbsent(nodes, backends);
      }
    } else {
      var x, y :| x in ids && y in ids && Contains(x, y) && x != y;
      var nodes := [Node(x, None, map[]), Node(y, None, map[])];
      var b := Backend(BackendID(0, 0), x, 0, x);
      ContainsItself(x);
      ConfusedIdsStarveSampling(nodes, 0, 1, b);
      assert InPlay(ids, [b], nodes);
    }
  }

  // ---------- What is wanted ----------

  /** The backends are on different nodes of the given ones: on all of them, or on as many as the limit says. */
  ghost predicate Fits(backends: seq<Backend>, nodes: seq<Node>, limit: Option<nat>) {
    && DistinctNames(backends)
    && (forall i | 0 <= i < |backends| :: IsNode(backends[i].name, nodes))
    && (limit.None? ==> forall i | 0 <= i < |nodes| :: HasName(backends, InstanceID(nodes[i])))
    && (limit.Some? ==> |backends| == limit.value)
  }

  function BackendNames(backends: seq<Backend>): (r: seq<string>)
    ensures |r| == |backends| && forall i | 0 <= i < |r| :: r[i] == backends[i].name
  {
    seq(|backends|, i requires 0 <= i < |backends| => backends[i].name)
  }

  function InstanceIDs(nodes: seq<Node>): (r: seq<string>)
    ensures |r| == |nodes| && forall i | 0 <= i < |r| :: r[i] == InstanceID(nodes[i])
  {
    seq(|nodes|, i requires 0 <= i < |nodes| => InstanceID(nodes[i]))
  }

  /** Without a limit the nodes determine how many backends there are, and on which instances. */
  lemma FitsDeterminesNames(backends: seq<Backend>, nodes: seq<Node>)
    requires Fits(backends, nodes, None) && DistinctNodes(nodes)
    ensures |backends| == |nodes|
    ensures forall name :: HasName(backends, name) <==> IsNode(name, nodes)
  {
    SameNames(backends, nodes);
    DistinctCount(BackendNames(backends));
    DistinctCount(InstanceIDs(nodes));
  }

  lemma SameNames(backends: seq<Backend>, nodes: seq<Node>)
    requires Fits(backends, nodes, None)
    ensures Elements(BackendNames(backends)) == Elements(InstanceIDs(nodes))
  {
    forall name | name in BackendNames(backends) ensures name in InstanceIDs(nodes) {
      var i :| 0 <= i < |backends| && BackendNames(backends)[i] == name;
      assert IsNode(backends[i].name, nodes);
      var j :| 0 <= j < |nodes| && InstanceID(nodes[j]) == name;
      assert InstanceIDs(nodes)[j] == name;
    }
    forall name | name in InstanceIDs(nodes) ensures name in BackendNames(backends) {
      var j :| 0 <= j < |nodes| && InstanceIDs(nodes)[j] == name;
      assert HasName(backends, InstanceID(nodes[j]));
      var i :| 0 <= i < |backends| && backends[i].name == name;
      assert BackendNames(backends)[i] == name;
    }
  }

  /** A limit of as many as there are nodes is no limit. */
  lemma FullLimitIsNone(backends: seq<Backend>, nodes: seq<Node>)
    requires DistinctNodes(nodes)
    ensures Fits(backends, nodes, Some(|nodes|)) <==> Fits(backends, nodes, None)
  {
    if Fits(backends, nodes, None) { FitsDeterminesNames(backends, nodes); }
    if Fits(backends, nodes, Some(|nodes|)) {
      forall j | 0 <= j < |nodes| ensures HasName(backends, InstanceID(nodes[j])) { AllCovered(backends, nodes, j); }
    }
  }

  /** Different backends on nodes, as many as the nodes: no node is left out. */
  lemma AllCovered(backends: seq<Backend>, nodes: seq<Node>, j: nat)
    requires DistinctNodes(nodes) && Fits(backends, nodes, Some(|nodes|)) && j < |nodes|
    ensures HasName(backends, InstanceID(nodes[j]))
  {
    var names, all := BackendNames(backends), InstanceIDs(nodes);
    if InstanceID(nodes[j]) !in names {
      forall name | name in names ensures name in all {
        var i :| 0 <= i < |names| && names[i] == name;
        assert IsNode(backends[i].name, nodes);
        var k :| 0 <= k < |nodes| && InstanceID(nodes[k]) == name;
        assert all[k] == name;
      }
      assert all[j] in all;
      DistinctCount(names);
      DistinctCount(all);
      SubsetCount(Elements(names) + {all[j]}, Elements(all));
    }
    var i :| 0 <= i < |names| && names[i] == InstanceID(nodes[j]);
    assert backends[i].name == InstanceID(nodes[j]);
  }

  // ---------- Deleting what the differ says ----------

  lemma InIds(backends: seq<Backend>, b: Backend)
    requires b in backends
    ensures b.id in Ids(backends)
  {
  }

  lemma SameIdSame(backends: seq<Backend>, a: Backend, b: Backend)
    requires DistinctIds(backends) && a in backends && b in backends && a.id == b.id
    ensures a == b
  {
  }

  /** Deleting a selection of backends by id leaves exactly the rest. */
  lemma GoneIsRest(backends: seq<Backend>, nodes: seq<Node>, b: Backend)
    requires DistinctIds(backends) && b in backends
    ensures b.id in Ids(Gone(backends, nodes)) <==> !NodesHasBackend(b.name, nodes)
    ensures b.id in Ids(Left(backends, nodes)) <==> NodesHasBackend(b.name, nodes)
  {
    PickMembers(backends, OffNodes(nodes));
    PickMembers(backends, OnNodes(nodes));
    var gone, left := Gone(backends, nodes), Left(backends, nodes);
    if NodesHasBackend(b.name, nodes) {
      assert b in left;
      InIds(left, b);
      if b.id in Ids(gone) {
        var i :| 0 <= i < |gone| && Ids(gone)[i] == b.id;
        assert gone[i] in gone;
        SameIdSame(backends, gone[i], b);
      }
    } else {
      assert b in gone;
      InIds(gone, b);
      if b.id in Ids(left) {
        var i :| 0 <= i < |left| && Ids(left)[i] == b.id;
        assert left[i] in left;
        SameIdSame(backends, left[i], b);
      }
    }
  }

  /** The ids to delete, beyond those of the backends on no node. */
  ghost function Picks(backends: seq<Backend>, nodes: seq<Node>, toDelete: seq<BackendID>): seq<BackendID>
    requires |Gone(backends, nodes)| <= |toDelete|
  {
    toDelete[|Gone(backends, nodes)|..]
  }

  lemma LeftAfterDelete(backends: seq<Backend>, nodes: seq<Node>, toDelete: seq<BackendID>)
    requires DistinctIds(backends)
    requires |Gone(backends, nodes)| <= |toDelete| && toDelete[..|Gone(backends, nodes)|] == Ids(Gone(backends, nodes))
    ensures Without(backends, toDelete) == Without(Left(backends, nodes), Picks(backends, nodes, toDelete))
  {
    var gone, picks := Ids(Gone(backends, nodes)), Picks(backends, nodes, toDelete);
    assert toDelete == gone + picks;
    forall b | b in backends
      ensures NotIn(toDelete)(b) == (OnNodes(nodes)(b) && NotIn(picks)(b))
    {
      GoneIsRest(backends, nodes, b);
    }
    PickPick(backends, OnNodes(nodes), NotIn(picks), NotIn(toDelete));
  }

  function In(ids: seq<BackendID>): Backend -> bool {
    (b: Backend) => b.id in ids
  }

  lemma PickKeepsIds(backends: seq<Backend>, keep: Backend -> bool)
    requires DistinctIds(backends)
    ensures DistinctIds(Pick(backends, keep)) && Distinct(Ids(Pick(backends, keep)))
  {
    var p := Pick(backends, keep);
    forall i, j | 0 <= i < j < |p| ensures p[i].id != p[j].id {
      PickOrder(backends, keep, i, j);
    }
  }

  lemma PickKeepsNames(backends: seq<Backend>, keep: Backend -> bool)
    requires DistinctNames(backends)
    ensures DistinctNames(Pick(backends, keep))
  {
    var p := Pick(backends, keep);
    forall i, j | 0 <= i < j < |p| ensures p[i].name != p[j].name {
      PickOrder(backends, keep, i, j);
    }
  }

  /** Picking backends by some of their ids finds these ids. */
  lemma PickedById(backends: seq<Backend>, picks: seq<BackendID>)
    requires forall x | x in picks :: x in Ids(backends)
    ensures Elements(Ids(Pick(backends, In(picks)))) == Elements(picks)
  {
    var hit := Pick(backends, In(picks));
    PickMembers(backends, In(picks));
    forall x | x in picks ensures x in Ids(hit) {
      var i :| 0 <= i < |backends| && Ids(backends)[i] == x;
      assert backends[i] in backends && backends[i] in hit;
      InIds(hit, backends[i]);
    }
    forall x | x in Ids(hit) ensures x in picks {
      var i :| 0 <= i < |hit| && Ids(hit)[i] == x;
      assert hit[i] in hit;
    }
  }

  lemma SampleOfIds(backends: seq<Backend>, picks: seq<BackendID>, n: int)
    requires DistinctIds(backends) && IsSample(picks, Ids(backends), n)
    ensures Distinct(picks) && forall x | x in picks :: x in Ids(backends)
  {
    var idx :| Sample(picks, Ids(backends), idx);
    SampleDistinct(picks, Ids(backends), idx);
  }

  /** Deleting n different backends of a listener leaves n fewer. */
  lemma WithoutCount(backends: seq<Backend>, picks: seq<BackendID>, n: int)
    requires DistinctIds(backends) && IsSample(picks, Ids(backends), n)
    ensures |Without(backends, picks)| == |backends| - n
  {
    SampleOfIds(backends, picks, n);
    PickedById(backends, picks);
    PickKeepsIds(backends, In(picks));
    DistinctCount(Ids(Pick(backends, In(picks))));
    DistinctCount(picks);
    PickCount(backends, In(picks), NotIn(picks));
  }

  /** What a deletion leaves: backends on nodes, of which a sample is missing when there were too many. */
  lemma KeptAfterDelete(backends: seq<Backend>, nodes: seq<Node>, limit: Option<nat>, toDelete: seq<BackendID>,
                        toAdd: seq<Node>)
    requires DistinctIds(backends) && DiffSpec(backends, nodes, limit, toDelete, toAdd)
    ensures var left, kept := Left(backends, nodes), Without(backends, toDelete);
            if limit.Some? && |left| > limit.value then |kept| == limit.value && toAdd == []
            else kept == left
  {
    var left := Left(backends, nodes);
    var gone := Ids(Gone(backends, nodes));
    LeftAfterDelete(backends, nodes, toDelete);
    if limit.Some? && |left| > limit.value {
      PickKeepsIds(backends, OnNodes(nodes));
      WithoutCount(left, Picks(backends, nodes, toDelete), |left| - limit.value);
    } else {
      assert toDelete == gone;
      PickAll(left, NotIn(Picks(backends, nodes, toDelete)));
    }
  }

  /** No more is disturbed than the limit demands: the backends deleted although their node is
      still wanted are as many as exceed the limit, and none when any backend is added. */
  lemma MinimalDisruption(backends: seq<Backend>, nodes: seq<Node>, limit: Option<nat>, toDelete: seq<BackendID>,
                          toAdd: seq<Node>)
    requires DistinctIds(backends) && DiffSpec(backends, nodes, limit, toDelete, toAdd)
    ensures var left := Left(backends, nodes);
            && |left| - |Without(left, toDelete)| ==
               (if limit.Some? && |left| > limit.value then |left| - limit.value else 0)
            && (toAdd != [] ==> Without(left, toDelete) == left)
  {
    LeftOrAllAfterDelete(backends, nodes, limit, toDelete, toAdd);
    KeptAfterDelete(backends, nodes, limit, toDelete, toAdd);
  }

  lemma LeftOrAllAfterDelete(backends: seq<Backend>, nodes: seq<Node>, limit: Option<nat>, toDelete: seq<BackendID>,
                             toAdd: seq<Node>)
    requires DistinctIds(backends) && DiffSpec(backends, nodes, limit, toDelete, toAdd)
    ensures Without(Left(backends, nodes), toDelete) == Without(backends, toDelete)
  {
    forall b | b in backends ensures NotIn(toDelete)(b) == (OnNodes(nodes)(b) && NotIn(toDelete)(b)) {
      GoneIsRest(backends, nodes, b);
      if b.id in Ids(Gone(backends, nodes)) {
        InGoneInDelete(backends, nodes, limit, toDelete, toAdd, b);
      }
    }
    PickPick(backends, OnNodes(nodes), NotIn(toDelete), NotIn(toDelete));
  }

  lemma InGoneInDelete(backends: seq<Backend>, nodes: seq<Node>, limit: Option<nat>, toDelete: seq<BackendID>,
                       toAdd: seq<Node>, b: Backend)
    requires DiffSpec(backends, nodes, limit, toDelete, toAdd) && b.id in Ids(Gone(backends, nodes))
    ensures b.id in toDelete
  {
  }

  // ---------- The round ----------

  lemma SampleOfNodes(picked: seq<Node>, nodes: seq<Node>, n: int)
    requires IsSample(picked, nodes, n) && DistinctNodes(nodes)
    ensures DistinctNodes(picked) && forall i | 0 <= i < |picked| :: picked[i] in nodes
  {
  }

  lemma PickNodesDistinct(nodes: seq<Node>, keep: Node -> bool)
    requires DistinctNodes(nodes)
    ensures DistinctNodes(Pick(nodes, keep))
  {
    var p := Pick(nodes, keep);
    forall i, j | 0 <= i < j < |p| ensures InstanceID(p[i]) != InstanceID(p[j]) {
      PickOrder(nodes, keep, i, j);
    }
  }

  /** The nodes to add are different nodes of the given ones, none of them behind the listener. */
  lemma Added(ids: set<string>, backends: seq<Backend>, nodes: seq<Node>, limit: Option<nat>, toDelete: seq<BackendID>,
              toAdd: seq<Node>)
    requires Known(ids, backends, nodes) && DistinctNodes(nodes)
    requires DiffSpec(backends, nodes, limit, toDelete, toAdd)
    ensures DistinctNodes(toAdd)
    ensures forall i | 0 <= i < |toAdd| :: toAdd[i] in nodes && !HasName(backends, InstanceID(toAdd[i]))
  {
    var absent := Absent(nodes, backends);
    PickMembers(nodes, NotBehind(backends));
    PickNodesDistinct(nodes, NotBehind(backends));
    if limit.Some? && |Left(backends, nodes)| <= limit.value {
      SampleOfNodes(toAdd, absent, limit.value - |Left(backends, nodes)|);
    }
    MatchingIsEquality(ids, backends, nodes);
    forall i | 0 <= i < |toAdd| ensures toAdd[i] in nodes && !HasName(backends, InstanceID(toAdd[i])) {
      assert toAdd[i] in absent;
    }
  }

  /** The backends kept are different ones on the nodes given. */
  lemma KeptFit(ids: set<string>, backends: seq<Backend>, nodes: seq<Node>, limit: Option<nat>,
                toDelete: seq<BackendID>, toAdd: seq<Node>)
    requires DistinctIds(backends) && DistinctNames(backends) && Known(ids, backends, nodes)
    requires DiffSpec(backends, nodes, limit, toDelete, toAdd)
    ensures var kept := Without(backends, toDelete);
            && DistinctNames(kept)
            && (forall i | 0 <= i < |kept| :: kept[i] in backends && IsNode(kept[i].name, nodes))
  {
    var kept := Without(backends, toDelete);
    PickKeepsNames(backends, NotIn(toDelete));
    PickMembers(backends, NotIn(toDelete));
    MatchingIsEquality(ids, backends, nodes);
    forall i | 0 <= i < |kept| ensures kept[i] in backends && IsNode(kept[i].name, nodes) {
      assert kept[i] in kept;
      var b := kept[i];
      GoneIsRest(backends, nodes, b);
      if b.id in Ids(Gone(backends, nodes)) {
        InGoneInDelete(backends, nodes, limit, toDelete, toAdd, b);
      }
      var k :| 0 <= k < |backends| && backends[k] == b;
      assert NodesHasBackend(backends[k].name, nodes);
    }
  }

  /** The backends a listener has once the differ's answer is carried out. */
  function After(backends: seq<Backend>, toDelete: seq<BackendID>, toAdd: seq<Node>, listener: nat, first: nat,
                 port: int): seq<Backend> {
    Without(backends, toDelete) + NewBackends(listener, first, Requests(toAdd, listener, Some(port)))
  }

  /** The new backends are called after the nodes they are for. */
  lemma NewBackendsNamed(toAdd: seq<Node>, listener: nat, first: nat, port: int)
    ensures var more := NewBackends(listener, first, Requests(toAdd, listener, Some(port)));
            |more| == |toAdd| && forall i | 0 <= i < |more| :: more[i].name == InstanceID(toAdd[i])
  {
  }

  /** Backends on different nodes together with others on different further nodes. */
  lemma AppendDistinct(kept: seq<Backend>, more: seq<Backend>, nodes: seq<Node>)
    requires DistinctNames(kept) && DistinctNames(more)
    requires forall i, j | 0 <= i < |kept| && 0 <= j < |more| :: kept[i].name != more[j].name
    requires forall i | 0 <= i < |kept| :: IsNode(kept[i].name, nodes)
    requires forall i | 0 <= i < |more| :: IsNode(more[i].name, nodes)
    ensures DistinctNames(kept + more) && forall i | 0 <= i < |kept + more| :: IsNode((kept + more)[i].name, nodes)
  {
  }

  lemma AppendHasName(kept: seq<Backend>, more: seq<Backend>, name: string)
    requires HasName(kept, name) || HasName(more, name)
    ensures HasName(kept + more, name)
  {
    if HasName(kept, name) {
      var i :| 0 <= i < |kept| && kept[i].name == name;
      assert (kept + more)[i].name == name;
    } else {
      var i :| 0 <= i < |more| && more[i].name == name;
      assert (kept + more)[|kept| + i].name == name;
    }
  }

  /** The nodes to add give new backends on different nodes, on none of which a kept backend is. */
  lemma AddedFit(ids: set<string>, backends: seq<Backend>, nodes: seq<Node>, limit: Option<nat>,
                 toDelete: seq<BackendID>, toAdd: seq<Node>, kept: seq<Backend>, more: seq<Backend>)
    requires Known(ids, backends, nodes) && DistinctNodes(nodes) && DiffSpec(backends, nodes, limit, toDelete, toAdd)
    requires forall i | 0 <= i < |kept| :: kept[i] in backends
    requires |more| == |toAdd| && forall i | 0 <= i < |more| :: more[i].name == InstanceID(toAdd[i])
    ensures DistinctNames(more) && forall i | 0 <= i < |more| :: IsNode(more[i].name, nodes)
    ensures forall i, j | 0 <= i < |kept| && 0 <= j < |more| :: kept[i].name != more[j].name
  {
    Added(ids, backends, nodes, limit, toDelete, toAdd);
    forall i | 0 <= i < |more| ensures IsNode(more[i].name, nodes) {
      assert toAdd[i] in nodes;
    }
    forall i, j | 0 <= i < |kept| && 0 <= j < |more| ensures kept[i].name != more[j].name {
      assert kept[i] in backends && !HasName(backends, InstanceID(toAdd[j]));
    }
  }

  /** Carrying out the differ's answer puts the right nodes behind the listener. */
  lemma DiffReaches(ids: set<string>, backends: seq<Backend>, nodes: seq<Node>, limit: Option<nat>,
                    toDelete: seq<BackendID>, toAdd: seq<Node>, listener: nat, first: nat, port: int)
    requires DistinctIds(backends) && DistinctNames(backends)
    requires Known(ids, backends, nodes) && DistinctNodes(nodes)
    requires DiffSpec(backends, nodes, limit, toDelete, toAdd)
    ensures Fits(After(backends, toDelete, toAdd, listener, first, port), nodes, limit)
  {
    var kept := Without(backends, toDelete);
    var more := NewBackends(listener, first, Requests(toAdd, listener, Some(port)));
    NewBackendsNamed(toAdd, listener, first, port);
    KeptFit(ids, backends, nodes, limit, toDelete, toAdd);
    AddedFit(ids, backends, nodes, limit, toDelete, toAdd, kept, more);
    AppendDistinct(kept, more, nodes);
    KeptAfterDelete(backends, nodes, limit, toDelete, toAdd);
    if limit.None? {
      forall i | 0 <= i < |nodes| ensures HasName(kept + more, InstanceID(nodes[i])) {
        NodeCovered(ids, backends, nodes, toDelete, toAdd, kept, more, i);
        AppendHasName(kept, more, InstanceID(nodes[i]));
      }
    }
  }

  /** Without a limit every node keeps its backend or gets one. */
  lemma NodeCovered(ids: set<string>, backends: seq<Backend>, nodes: seq<Node>, toDelete: seq<BackendID>,
                    toAdd: seq<Node>, kept: seq<Backend>, more: seq<Backend>, i: nat)
    requires Known(ids, backends, nodes) && toAdd == Absent(nodes, backends) && i < |nodes|
    requires kept == Left(backends, nodes)
    requires |more| == |toAdd| && forall j | 0 <= j < |more| :: more[j].name == InstanceID(toAdd[j])
    ensures HasName(kept, InstanceID(nodes[i])) || HasName(more, InstanceID(nodes[i]))
  {
    var n := nodes[i];
    MatchingIsEquality(ids, backends, nodes);
    PickMembers(nodes, NotBehind(backends));
    PickMembers(backends, OnNodes(nodes));
    if BackendsHasNode(n, backends) {
      var k :| 0 <= k < |backends| && backends[k].name == InstanceID(n);
      assert IsNode(backends[k].name, nodes) && backends[k] in backends && backends[k] in kept;
      HasNameIn(kept, backends[k]);
    } else {
      assert n in nodes && n in toAdd;
      var m :| 0 <= m < |toAdd| && toAdd[m] == n;
      assert more[m].name == InstanceID(n);
    }
  }

  lemma HasNameIn(backends: seq<Backend>, b: Backend)
    requires b in backends
    ensures HasName(backends, b.name)
  {
  }

  /** The differ has nothing to say exactly when the right nodes are behind the listener. */
  lemma NothingToDoIffFits(ids: set<string>, backends: seq<Backend>, nodes: seq<Node>, limit: Option<nat>,
                           toDelete: seq<BackendID>, toAdd: seq<Node>)
    requires DistinctIds(backends) && DistinctNames(backends)
    requires Known(ids, backends, nodes) && DistinctNodes(nodes)
    requires DiffSpec(backends, nodes, limit, toDelete, toAdd)
    ensures toDelete == [] && toAdd == [] <==> Fits(backends, nodes, limit)
  {
    if toDelete == [] && toAdd == [] {
      DiffReaches(ids, backends, nodes, limit, toDelete, toAdd, 0, 0, 0);
      PickAll(backends, NotIn([]));
      assert After(backends, [], [], 0, 0, 0) == backends;
    }
    if Fits(backends, nodes, limit) {
      MatchingIsEquality(ids, backends, nodes);
      PickNone(backends, OffNodes(nodes));
      PickAll(backends, OnNodes(nodes));
      if limit.None? { PickNone(nodes, NotBehind(backends)); }
    }
  }
}
