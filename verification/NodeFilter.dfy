/** Which nodes a run considers, and how many of them it wants: `filterNodes` (pkg/qingcloud/qingcloud.go). */
module NodeFilter {
  import opened Wrappers
  import opened GoStrings
  import opened Apis
  import opened Sequences
  import opened AnnotationParsers
  import opened ServiceConfig
  import opened BackendLaws

  const DEFAULT_BACKEND_COUNT := 3

  // ---------- Labels ----------

  function LabelParts(parts: seq<string>, acc: map<string, string>): Option<map<string, string>> {
    if parts == [] then Some(acc)
    else if parts[0] == "" then LabelParts(parts[1..], acc)
    else
      var p := Split(parts[0], '=');
      if |p| != 2 then None else LabelParts(parts[1..], acc[p[0] := p[1]])
  }

  /** The labels `key=value,key=value` asks for. */
  function LabelData(data: string): Option<map<string, string>> {
    LabelParts(Split(data, ','), map[])
  }

  method ParseAnnotationIntoStringMap(data: string) returns (r: Option<map<string, string>>)
    ensures r == LabelData(data)
  {
    var parts := Split(data, ',');
    var rst: map<string, string> := map[];
    for i := 0 to |parts|
      invariant LabelParts(parts[i..], rst) == LabelData(data)
    {
      assert parts[i..][1..] == parts[i + 1..];
      if parts[i] == "" {
        continue;
      }
      var p := Split(parts[i], '=');
      if |p| != 2 { return None; }
      rst := rst[p[0] := p[1]];
    }
    return Some(rst);
  }

  function LabelEntry(e: (string, string)): string {
    e.0 + "=" + e.1
  }

  function RenderLabels(entries: seq<(string, string)>): string {
    if entries == [] then "" else Join(seq(|entries|, i requires 0 <= i < |entries| => LabelEntry(entries[i])), ',')
  }

  predicate Plain(s: string) {
    '=' !in s && ',' !in s
  }

  lemma {:induction false} LabelPartsRendered(parts: seq<string>, entries: seq<(string, string)>,
                                              acc: map<string, string>)
    requires |parts| == |entries|
    requires forall i | 0 <= i < |entries| ::
               parts[i] == LabelEntry(entries[i]) && Plain(entries[i].0) && Plain(entries[i].1)
    ensures LabelParts(parts, acc) == Some(Written(acc, entries))
  {
    if parts != [] {
      SplitAtSep(entries[0].0, '=', entries[0].1);
      SplitNoSep(entries[0].1, '=');
      LabelPartsRendered(parts[1..], entries[1..], acc[entries[0].0 := entries[0].1]);
    }
  }

  /** Reading a rendered list of labels writes them in order, so that the last value for a key counts. */
  lemma ParseRenderedLabels(entries: seq<(string, string)>)
    requires forall e | e in entries :: Plain(e.0) && Plain(e.1)
    ensures LabelData(RenderLabels(entries)) == Some(Written(map[], entries))
  {
    if entries != [] {
      var parts := seq(|entries|, i requires 0 <= i < |entries| => LabelEntry(entries[i]));
      forall p | p in parts ensures ',' !in p {
        var i :| 0 <= i < |parts| && parts[i] == p;
        assert entries[i] in entries;
      }
      forall i | 0 <= i < |entries| ensures Plain(entries[i].0) && Plain(entries[i].1) { assert entries[i] in entries; }
      SplitJoin(parts, ',');
      LabelPartsRendered(parts, entries, map[]);
    } else {
      assert Split("", ',') == [""];
      assert LabelParts([""], map[]) == LabelParts([], map[]);
    }
  }

  /** Any finite map of plain labels is read back from its rendering, whatever order they are written in. */
  lemma LabelRoundTrip(entries: seq<(string, string)>, m: map<string, string>)
    requires ListsMap(entries, m) && forall k | k in m :: Plain(k) && Plain(m[k])
    ensures LabelData(RenderLabels(entries)) == Some(m)
  {
    ParseRenderedLabels(entries);
    WrittenLists(entries, m, map[]);
  }

  /** A part that is neither empty nor one key and one value is an error, wherever it stands. */
  lemma {:induction false} LabelErrorIff(parts: seq<string>, acc: map<string, string>)
    ensures LabelParts(parts, acc).None? <==>
            exists i | 0 <= i < |parts| :: parts[i] != "" && |Split(parts[i], '=')| != 2
  {
    if parts != [] {
      var rest := parts[1..];
      var p := Split(parts[0], '=');
      if parts[0] == "" {
        LabelErrorIff(rest, acc);
      } else if |p| == 2 {
        LabelErrorIff(rest, acc[p[0] := p[1]]);
      }
      assert forall i | 0 <= i < |rest| :: rest[i] == parts[i + 1];
      assert forall i | 1 <= i < |parts| :: parts[i] == rest[i - 1];
    }
  }

  predicate HasLabels(n: Node, labels: map<string, string>) {
    forall k | k in labels :: k in n.labels && n.labels[k] == labels[k]
  }

  /** Counts the labels a node has until one is missing. */
  method CountLabels(n: Node, labels: map<string, string>) returns (all: bool)
    ensures all == HasLabels(n, labels)
  {
    var keys := Enumerate(labels.Keys);
    var count := 0;
    while count < |keys|
      invariant 0 <= count <= |keys|
      invariant forall i | 0 <= i < count :: keys[i] in n.labels && n.labels[keys[i]] == labels[keys[i]]
    {
      var k := keys[count];
      assert k in keys && k in labels;
      if k in n.labels && n.labels[k] == labels[k] {
        count := count + 1;
      } else {
        break;
      }
    }
    all := count == |keys|;
    if all {
      forall k | k in labels ensures k in n.labels && n.labels[k] == labels[k] {
        assert k in keys;
      }
    }
  }

  // ---------- Endpoints ----------

  predicate RunsPod(ep: Endpoints, name: string) {
    exists i | 0 <= i < |ep| :: name in ep[i]
  }

  method NodesOfEndpoints(ep: Endpoints) returns (names: set<string>)
    ensures forall name :: name in names <==> RunsPod(ep, name)
  {
    names := {};
    for i := 0 to |ep|
      invariant forall name :: name in names <==> RunsPod(ep[..i], name)
    {
      ghost var before := names;
      for j := 0 to |ep[i]|
        invariant forall name :: name in names <==> name in before || name in ep[i][..j]
      {
        names := names + {ep[i][j]};
      }
      assert ep[i][..|ep[i]|] == ep[i];
      forall name ensures name in names <==> RunsPod(ep[..i + 1], name) {
        assert ep[..i + 1][i] == ep[i] && forall k | 0 <= k < i :: ep[..i + 1][k] == ep[..i][k];
      }
    }
    assert ep[..|ep|] == ep;
  }

  // ---------- The choice ----------

  /** A third of the nodes, at least three; no limit for three nodes or fewer. */
  function DefaultBackendCount(nodes: nat): nat {
    if nodes <= 3 then 0 else if nodes / 3 < DEFAULT_BACKEND_COUNT then DEFAULT_BACKEND_COUNT else nodes / 3
  }

  function OnWorkers(ep: Endpoints): Node -> bool {
    (n: Node) => RunsPod(ep, n.name)
  }

  function WithLabels(labels: map<string, string>): Node -> bool {
    (n: Node) => HasLabels(n, labels)
  }

  /** When the choice can be made: Local needs the endpoints, a label annotation must parse. */
  predicate CanFilter(policy: TrafficPolicy, ep: Option<Endpoints>, conf: Config) {
    if policy == Local then ep.Some? else conf.backendLabel != "" ==> LabelData(conf.backendLabel).Some?
  }

  function Labelled(nodes: seq<Node>, conf: Config): seq<Node>
    requires conf.backendLabel != "" ==> LabelData(conf.backendLabel).Some?
  {
    if conf.backendLabel == "" then [] else Pick(nodes, WithLabels(LabelData(conf.backendLabel).value))
  }

  /** The nodes chosen. A label that selects nothing is as good as none. */
  function Chosen(policy: TrafficPolicy, nodes: seq<Node>, ep: Option<Endpoints>, conf: Config): seq<Node>
    requires CanFilter(policy, ep, conf)
  {
    if policy == Local then Pick(nodes, OnWorkers(ep.value))
    else if Labelled(nodes, conf) == [] then nodes
    else Labelled(nodes, conf)
  }

  /** How many of them are wanted; 0 is all. */
  function CountFor(policy: TrafficPolicy, nodes: seq<Node>, ep: Option<Endpoints>, conf: Config): int
    requires CanFilter(policy, ep, conf)
  {
    if policy == Local then conf.backendCountResult
    else if conf.backendLabel != "" then
      if Labelled(nodes, conf) == [] then DefaultBackendCount(|nodes|) else 0
    else if conf.backendCountConfig != "" then
      var asked := Atoi(conf.backendCountConfig);
      if asked.Some? && 0 < asked.value <= |nodes| then asked.value else DefaultBackendCount(|nodes|)
    else 0
  }

  // ---------- The same, told from the annotation texts ----------

  /** Some subset of the endpoints has an address on the node. */
  ghost predicate HasPod(ep: Endpoints, n: Node) {
    exists i, j :: 0 <= i < |ep| && 0 <= j < |ep[i]| && ep[i][j] == n.name
  }

  /** The node bears every `key=value` of the label annotation. */
  ghost predicate Bears(n: Node, labels: string) {
    LabelData(labels).Some? && forall k | k in LabelData(labels).value ::
      k in n.labels && n.labels[k] == LabelData(labels).value[k]
  }

  ghost predicate SomeBears(nodes: seq<Node>, labels: string) {
    exists i | 0 <= i < |nodes| :: Bears(nodes[i], labels)
  }

  /** Which nodes are chosen: under Local those with a pod; else those with the labels asked for, or all when no node
      has them or none are asked for; always in the order given. */
  ghost predicate ChosenAsAsked(policy: TrafficPolicy, nodes: seq<Node>, ep: Option<Endpoints>, labels: string,
                                r: seq<Node>) {
    if policy.Local? then ep.Some? && Selected(r, nodes, (n: Node) => HasPod(ep.value, n))
    else if labels != "" && SomeBears(nodes, labels) then Selected(r, nodes, (n: Node) => Bears(n, labels))
    else r == nodes
  }

  /** The choice cannot be made: the endpoints are missing, or a part of the label annotation is neither empty nor one
      key and one value. */
  ghost predicate NoChoice(policy: TrafficPolicy, ep: Option<Endpoints>, labels: string) {
    if policy.Local? then ep.None?
    else labels != "" && exists i | 0 <= i < |Split(labels, ',')| ::
           Split(labels, ',')[i] != "" && |Split(Split(labels, ',')[i], '=')| != 2
  }

  /** The default number for so many nodes, 0 standing for all of them. */
  ghost predicate DefaultNumber(nodes: nat, count: int) {
    && (nodes <= 3 ==> count == 0) && (3 < nodes < 9 ==> count == 3)
    && (nodes >= 9 ==> 3 * count <= nodes < 3 * count + 3)
  }

  /** How many of the nodes are wanted, 0 standing for all: with a label none is left out, unless no node has it; else
      the number annotated, if there are so many nodes. */
  ghost predicate CountAsAsked(nodes: seq<Node>, labels: string, asked: string, count: int) {
    if labels != "" then if SomeBears(nodes, labels) then count == 0 else DefaultNumber(|nodes|, count)
    else if asked != "" then
      if Atoi(asked).Some? && 1 <= Atoi(asked).value <= |nodes| then Some(count) == Atoi(asked)
      else DefaultNumber(|nodes|, count)
    else count == 0
  }

  lemma ChosenLabelled(nodes: seq<Node>, labels: string)
    requires LabelData(labels).Some?
    ensures var picked := Pick(nodes, WithLabels(LabelData(labels).value));
            && (picked == [] <==> !SomeBears(nodes, labels))
            && Selected(picked, nodes, (n: Node) => Bears(n, labels))
  {
    var keep := WithLabels(LabelData(labels).value);
    assert forall n :: keep(n) <==> Bears(n, labels);
    var idx := PickSelects(nodes, keep);
    assert SelectedAt(Pick(nodes, keep), nodes, (n: Node) => Bears(n, labels), idx);
    if SomeBears(nodes, labels) {
      var i :| 0 <= i < |nodes| && Bears(nodes[i], labels);
      assert i in idx;
    }
    if idx != [] { assert idx[0] in idx; }
  }

  lemma ChosenIsAsked(policy: TrafficPolicy, nodes: seq<Node>, ep: Option<Endpoints>, conf: Config)
    requires CanFilter(policy, ep, conf)
    ensures ChosenAsAsked(policy, nodes, ep, conf.backendLabel, Chosen(policy, nodes, ep, conf))
    ensures policy != Local ==>
              CountAsAsked(nodes, conf.backendLabel, conf.backendCountConfig, CountFor(policy, nodes, ep, conf))
  {
    if policy == Local {
      var keep := OnWorkers(ep.value);
      forall n ensures keep(n) <==> HasPod(ep.value, n) {
        if keep(n) {
          var i :| 0 <= i < |ep.value| && n.name in ep.value[i];
          var j :| 0 <= j < |ep.value[i]| && ep.value[i][j] == n.name;
        }
      }
      var idx := PickSelects(nodes, keep);
      assert SelectedAt(Pick(nodes, keep), nodes, (n: Node) => HasPod(ep.value, n), idx);
    } else if conf.backendLabel != "" {
      ChosenLabelled(nodes, conf.backendLabel);
    }
  }

  lemma NoChoiceIff(policy: TrafficPolicy, ep: Option<Endpoints>, conf: Config)
    ensures CanFilter(policy, ep, conf) <==> !NoChoice(policy, ep, conf.backendLabel)
  {
    if policy != Local { LabelErrorIff(Split(conf.backendLabel, ','), map[]); }
  }

  /** Chooses the nodes, and notes their number in the configuration. */
  method FilterNodes(policy: TrafficPolicy, nodes: seq<Node>, ep: Option<Endpoints>, conf: LoadBalancerConfig)
    returns (r: Result<seq<Node>>)
    modifies conf
    ensures r.Ok? <==> CanFilter(policy, ep, old(conf.fields))
    ensures r.Ok? <==> !NoChoice(policy, ep, old(conf.fields).backendLabel)
    ensures r.Ok? ==> r.value == Chosen(policy, nodes, ep, old(conf.fields))
    ensures r.Ok? ==> ChosenAsAsked(policy, nodes, ep, old(conf.fields).backendLabel, r.value)
    ensures r.Ok? ==> conf.fields == old(conf.fields).(backendCountResult := CountFor(policy, nodes, ep,
                                                                                      old(conf.fields)))
    ensures r.Ok? && policy != Local ==>
              CountAsAsked(nodes, old(conf.fields).backendLabel, old(conf.fields).backendCountConfig,
                           conf.fields.backendCountResult)
  {
    NoChoiceIff(policy, ep, conf.fields);
    if CanFilter(policy, ep, conf.fields) { ChosenIsAsked(policy, nodes, ep, conf.fields); }
    r := ChooseNodes(policy, nodes, ep, conf);
  }

  method ChooseNodes(policy: TrafficPolicy, nodes: seq<Node>, ep: Option<Endpoints>, conf: LoadBalancerConfig)
    returns (r: Result<seq<Node>>)
    modifies conf
    ensures r.Ok? <==> CanFilter(policy, ep, old(conf.fields))
    ensures r.Ok? ==> r.value == Chosen(policy, nodes, ep, old(conf.fields))
    ensures r.Ok? ==> conf.fields == old(conf.fields).(backendCountResult := CountFor(policy, nodes, ep,
                                                                                      old(conf.fields)))
  {
    var newNodes: seq<Node> := [];
    if policy == Local {
      if ep.None? { return Err(Failed); }
      var names := NodesOfEndpoints(ep.value);
      ghost var keep := OnWorkers(ep.value);
      for i := 0 to |nodes|
        invariant newNodes == Pick(nodes[..i], keep)
        invariant conf.fields == old(conf.fields)
      {
        PickStep(nodes, i, keep);
        if nodes[i].name in names { newNodes := newNodes + [nodes[i]]; }
      }
      assert nodes[..|nodes|] == nodes;
      return Ok(newNodes);
    }
    var backendCountResult := 0;
    if conf.fields.backendLabel != "" {
      var labels := ParseAnnotationIntoStringMap(conf.fields.backendLabel);
      if labels.None? { return Err(Failed); }
      newNodes := NodesWithLabels(nodes, labels.value);
      if |newNodes| == 0 {
        backendCountResult := DefaultBackendCount(|nodes|);
      }
    } else if conf.fields.backendCountConfig != "" {
      var asked := Atoi(conf.fields.backendCountConfig);
      if asked.Some? && asked.value > 0 && asked.value <= |nodes| {
        backendCountResult := asked.value;
      } else {
        backendCountResult := DefaultBackendCount(|nodes|);
      }
    }
    if |newNodes| == 0 {
      newNodes := nodes;
    }
    conf.fields := conf.fields.(backendCountResult := backendCountResult);
    return Ok(newNodes);
  }

  method NodesWithLabels(nodes: seq<Node>, labels: map<string, string>) returns (r: seq<Node>)
    ensures r == Pick(nodes, WithLabels(labels))
  {
    r := [];
    ghost var keep := WithLabels(labels);
    for i := 0 to |nodes|
      invariant r == Pick(nodes[..i], keep)
    {
      var all := CountLabels(nodes[i], labels);
      PickStep(nodes, i, keep);
      if all { r := r + [nodes[i]]; }
    }
    assert nodes[..|nodes|] == nodes;
  }

  /** No more nodes are ever asked for than were chosen, and what was chosen keeps the nodes apart. */
  lemma CountIsAvailable(policy: TrafficPolicy, nodes: seq<Node>, ep: Option<Endpoints>, conf: Config)
    requires CanFilter(policy, ep, conf) && conf.backendCountResult == 0
    ensures 0 <= CountFor(policy, nodes, ep, conf) <= |Chosen(policy, nodes, ep, conf)|
    ensures DistinctNodes(nodes) ==> DistinctNodes(Chosen(policy, nodes, ep, conf))
    ensures forall n | n in Chosen(policy, nodes, ep, conf) :: n in nodes
  {
    if policy == Local {
      PickMembers(nodes, OnWorkers(ep.value));
      if DistinctNodes(nodes) { PickNodesDistinct(nodes, OnWorkers(ep.value)); }
    } else if conf.backendLabel != "" {
      var keep := WithLabels(LabelData(conf.backendLabel).value);
      PickMembers(nodes, keep);
      if DistinctNodes(nodes) { PickNodesDistinct(nodes, keep); }
    }
  }

  /** The documented default: all nodes up to three of them, else a third but at least three. */
  lemma DefaultCountBounds(n: nat)
    ensures DefaultNumber(n, DefaultBackendCount(n))
    ensures n > 3 ==> 3 <= DefaultBackendCount(n) <= n
  {
  }
}
