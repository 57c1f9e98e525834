# A verified model of the QingCloud load-balancer reconciler

The QingCloud cloud controller manager keeps a cloud load balancer in line with a Kubernetes Service: it
reads what the cloud has, compares it with what the Service, its annotations and the nodes ask for, and issues
an ordered list of mutating calls, any of which can fail. This project models that control loop in Dafny and
proves what its runs guarantee.

## The model

* `Cloud.dfy` is the other side of `QingCloudClientInterface`: a state (load balancers, listeners with their
  backends, the EIP pool), the twelve mutating calls with the conditions under which the cloud accepts them and
  their effect, and a client object. Every call is done, refused, or done with its answer lost; reads can fail
  too. The client keeps a ghost log of every call with the states around it and a ghost count of faults. All
  statements about "every step" are statements about that log. `View` is what can be seen of the client at one
  moment (state, log, faults); what a run promises is a predicate over the views before and after it, so that the
  phases of a run can be composed by lemmas.
* `Config.dfy`, `AnnotationParsers.dfy`, `Naming.dfy`, `GoStrings.dfy`: annotations to configuration, and names.
* `Listeners.dfy`, `ListenerLaws.dfy`: the listener generator and differ, and why they agree.
* `Backends.dfy`, `BackendLaws.dfy`, `NodeFilter.dfy`, `Random.dfy`: which nodes stand behind a listener, with and
  without a limit, and sampling by rejection.
* `Eips.dfy`: EIP reconciliation.
* `Discipline.dfy`: what each single call of a run must keep to (`Disciplined`), what that leaves untouched
  (`Untouched`), and the invariant that makes the next run possible (`Inv`).
* `BackendRuns.dfy`, `ListenerRuns.dfy`, `SyncLaws.dfy`, `SyncRuns.dfy`, `Balancers.dfy`, `EnsureRuns.dfy`,
  `UpdateRuns.dfy`, `DeleteRuns.dfy`: the runs, phase by phase.
* `QingCloud.dfy`: the provider object with `EnsureLoadBalancer`, `UpdateLoadBalancer` and
  `EnsureLoadBalancerDeleted`; `ServiceController.dfy`: the controller that cleans up after a change of type.
* `Outcomes.dfy`: what a run has brought about, told from the annotation texts, the ports, the nodes and the endpoints
  alone, without any function that reads them.
* `Theorems.dfy`: runs repeated, and runs one after the other; `Neighbours.dfy`: what other services may rely on, and
  what two services on one load balancer do to each other.

The central predicate is `ListenerRuns.Converged`: the service's listeners on the load balancer serve its ports,
all of them and nothing else, each with the configured attributes and with backends on the node port of exactly
the chosen nodes, or of exactly as many of them as the limit says. `ListenerRuns.ConvergedIsBijection` makes that
a bijection.

## What is assumed, and where

Every hypothesis is a `requires` clause or the left side of an implication.

* Namespaces and names contain no underscore (they are DNS labels, section 2.3.1 of RFC 1035): `Naming.Label`.
  `UnderscoreConfusesOwners` shows what happens otherwise.
* Instance ids can be told apart as substrings: `BackendLaws.Separate`. Ids of one length can
  (`SameLengthSeparate`); `SamplingSucceedsIff` shows this to be exactly what sampling under a limit needs.
* Service ports differ in port or protocol, and a protocol annotation keeps the transport of its port:
  `ListenerLaws.PortsOK`. `NodePortFoundIff` shows the second part is exactly what a listener needs to find its
  node port.
* Ports and own listeners fit on one page of 100: `SyncRuns.WithinLimits`, `Provider.Manageable`. Every run keeps
  that, wherever it breaks off (`Provider.StaysFit`).
* For a run to succeed without a fault nothing may stand in its way (`Provider.Doable`), and there must be an address
  to see. What no run succeeds without is `Provider.Unobstructed`; it differs from `Doable` in that a port need not be
  generable while a listener stands for it. Whether there will be an address can be told beforehand
  (`Balancers.StaysAddressed`), except where the configuration gives a new load balancer no address
  (`EnsureRuns.GivesAddress`) and the cloud chooses. `Theorems.Attainable` collects what makes sure of success in the
  end, however many runs fail before.
* At most one load balancer answers to the configuration: `Balancers.Unambiguous`.
* For the fixed point there is a node to serve from; `SyncLaws.RestIffNodes` shows this to be exact: without one
  every listener is made anew on every run.
* A run that finds nothing to do leaves the cloud, and so a change that a failed run left pending, as it is:
  `Theorems.PendingCanStay` shows a cloud and a request for which no run ever applies it. `Provider.PendingLeft`
  says exactly when a successful run leaves a change pending: when one was pending, the attributes were settled
  and the listeners had converged.
* The random source is fair in the sense that no number ever stops being drawn: `Random.Reader.Fair`.
* Under policy exclusive with an id annotation, ensure and deletion look for different load balancers;
  `Theorems.SameTargetIff` says exactly when they agree. With an id nobody has, a run
  makes a load balancer that the next one does not find: `Theorems.FoundAgainIff` says exactly when it is found,
  `EnsureTwice` and `EnsureAnother` what follows in either case.

A service that moves from one reused load balancer to another leaves its listeners on the first, which a TODO of the
controller acknowledges: `ServiceController.OldTargetedIff` and `MoveBalancer`. Two services that share a load
balancer and ask for the same attributes come to rest together (`Neighbours.EnsureBoth`); with different node counts
each undoes what the other did, on every run (`TakeTurns`). The `reuse` policy sets no name,
because its inner test never holds; see "Left out".

## Model

| member | source | states |
|---|---|---|
| GoStrings.ContainsSameLength | pkg/qingcloud/loadbalancer_utils.go:546 | between strings of one length, containment (the test the reconciler uses) is equality |
| GoStrings.SplitJoin | pkg/qingcloud/annotation_valid.go:29 | splitting what was joined from separator-free parts gives the parts back |
| GoStrings.JoinSplit | pkg/qingcloud/annotation_valid.go:35 | joining what was split gives the text back, for every text |
| GoStrings.AtoiItoa | pkg/qingcloud/annotation_valid.go:39 | the decimal rendering of any 64-bit integer is read back as that integer |
| GoStrings.AtoiReads | pkg/qingcloud/annotation_valid.go:39 | only digits are read, with or without a sign before them, and only numbers of 64 bits |
| GoStrings.AtoiOfPositive | pkg/qingcloud/annotation_valid.go:39 | digits after a plus are read as the number they denote |
| AnnotationParsers.ParseLsnAnnotaionData | pkg/qingcloud/annotation_valid.go:28-46 | the loop answers what the recursive reading of the text says, errors included |
| AnnotationParsers.ParseAnnotationIntoIntIntMap | pkg/qingcloud/annotation_valid.go:56-76 | the loop answers what the recursive reading of the text says, errors included |
| AnnotationParsers.LsnErrorIff | pkg/qingcloud/annotation_valid.go:33-41 | the text is refused if and only if some part is neither empty nor a number, a colon and a text without one |
| AnnotationParsers.IntErrorIff | pkg/qingcloud/annotation_valid.go:61-74 | the text is refused if and only if some part is not two numbers with a colon between |
| AnnotationParsers.ValidListenerTimeout | pkg/qingcloud/annotation_valid.go:96-111 | accepts exactly the texts that parse with all values in 10..86400 |
| AnnotationParsers.ValidListenerScene | pkg/qingcloud/annotation_valid.go:113-128 | accepts exactly the texts that parse with all values in {0, 1, 11} |
| AnnotationParsers.LastEntryWins | pkg/qingcloud/annotation_valid.go:43 | of several entries for one port the last one is kept |
| AnnotationParsers.ParseRenderedLsn | pkg/qingcloud/annotation_valid.go:28-46 | reading a rendered list of `port:value` entries writes exactly those entries, in order |
| AnnotationParsers.ParseRenderedInt | pkg/qingcloud/annotation_valid.go:56-76 | the same for integer values, for which the empty list is refused |
| AnnotationParsers.LsnRoundTrip | pkg/qingcloud/annotation_valid.go:19-46 | any finite map with values free of `,` and `:` is read back from its rendering |
| AnnotationParsers.IntRoundTrip | pkg/qingcloud/annotation_valid.go:48-76 | any finite integer map is read back from its rendering if and only if it is not empty |
| Naming.OwnerUnique | pkg/qingcloud/annotations.go:324 | no listener name begins with the prefixes of two different services |
| Naming.SharedNameIff | pkg/qingcloud/annotations.go:324 | for any two services a listener name with both prefixes exists if and only if one prefix begins with the other |
| Naming.UnderscoreConfusesOwners | pkg/qingcloud/annotations.go:324 | two services whose names hold an underscore can share one listener name |
| Naming.LBNameUnique | pkg/qingcloud/annotations.go:320 | in one cluster two services with the same load balancer name are one service with one first uid segment |
| Naming.FirstUIDIff | pkg/util/util.go:83-86 | the first segment is the text without a dash that is the whole uid or is followed by a dash in it |
| ServiceConfig.ParseServiceLBConfig | pkg/qingcloud/annotations.go:146-328 | succeeds exactly when the annotations are acceptable, and then every field is what the annotation texts say: replace holds exactly when annotated `true`, ids are the parts of a non-empty id annotation, the source is one of the three modes when there are no ids, and so on for network, listeners, backends, numbers, policy and names |
| ServiceConfig.ParseEipAnnotations | pkg/qingcloud/annotations.go:154-177 | the EIP fields as the texts say: ids if given, else the mode if it is `auto`, `use-available` or `allocate`; replace if and only if annotated `true`; nothing else changes |
| ServiceConfig.ParseListenerAnnotations | pkg/qingcloud/annotations.go:197-252 | accepts exactly when every listener annotation present is valid; then all nine are recorded |
| ServiceConfig.ParseNetworkAnnotations | pkg/qingcloud/annotations.go:179-277 | network fields, with the default network only for internal load balancers that name none |
| ServiceConfig.ParseNumbers | pkg/qingcloud/annotations.go:258-292 | accepts exactly when the numeric annotations present are numbers |
| ServiceConfig.AsAnnotatedIff | pkg/qingcloud/annotations.go:146-328 | a configuration is the one computed if and only if each of its fields is what the annotation texts say |
| ServiceConfig.EipAsAnnotatedIff | pkg/qingcloud/annotations.go:154-177 | the same of the EIP fields alone |
| ServiceConfig.AcceptedIff | pkg/qingcloud/annotations.go:146-328 | a service is accepted if and only if it has annotations, those of listeners can be read and are in range, the numbers can be read, and reuse-lb comes with an id |
| Random.GetRandomItems | pkg/util/util.go:103-116 | terminates under a fair source and returns `count` elements at pairwise different positions |
| Random.FreePosition | pkg/util/util.go:107-109 | while fewer positions are taken than exist, one is free, so the wait for a fresh draw is finite |
| Random.SampleDistinct | pkg/qingcloud/loadbalancer_utils.go:616-629 | a sample of different items has different items, all of them given |
| Random.SampleAll | pkg/qingcloud/loadbalancer_utils.go:620-627 | a sample as large as the whole takes every item |
| NodeFilter.ParseAnnotationIntoStringMap | pkg/qingcloud/loadbalancer_utils.go:419-434 | the loop answers what the recursive reading of `key=value,...` says |
| NodeFilter.ParseRenderedLabels | pkg/qingcloud/loadbalancer_utils.go:419-434 | reading a rendered list of `key=value` labels writes exactly those labels, in order, so the last value of a key is kept |
| NodeFilter.LabelRoundTrip | pkg/qingcloud/loadbalancer_utils.go:419-434 | any finite map of labels free of `,` and `=` is read back from its rendering |
| NodeFilter.LabelErrorIff | pkg/qingcloud/loadbalancer_utils.go:424-431 | the annotation is refused if and only if some part is neither empty nor one key and one value |
| NodeFilter.CountLabels | pkg/qingcloud/qingcloud.go:612-624 | counting labels until one is missing finds them all exactly when the node has them all |
| NodeFilter.NodesOfEndpoints | pkg/qingcloud/qingcloud.go:585-593 | a node is collected exactly when some subset has an address on it |
| NodeFilter.FilterNodes | pkg/qingcloud/qingcloud.go:578-662 | under Local exactly the given nodes with an address of some subset on them, in order, failing only without endpoints; else exactly the nodes that bear every annotated label, or all of them where no label is annotated or none bears them, failing only when the label annotation cannot be read; and the count that is annotated and can be had, or the default, or none |
| NodeFilter.ChosenIsAsked | pkg/qingcloud/qingcloud.go:595-655 | the choice and the count computed are the ones told from endpoints, labels and count annotation |
| NodeFilter.NoChoiceIff | pkg/qingcloud/qingcloud.go:580-608 | the choice fails if and only if Local finds no endpoints or, under the other policies, some part of the label annotation is neither empty nor one key and one value |
| NodeFilter.CountIsAvailable | pkg/qingcloud/qingcloud.go:602-652 | the count is 0 or at most the number of nodes chosen, and the chosen are different nodes of the given ones |
| NodeFilter.DefaultCountBounds | pkg/qingcloud/loadbalancer_utils.go:631-639 | the default is no limit up to three nodes, three up to eight, and from nine on a third of them, rounded down |
| Backends.GetLoadBalancerListenerNodePort | pkg/qingcloud/loadbalancer_utils.go:280-301 | returns the port of the first backend or of the first matching service port, although it overwrites the protocol on the way; asked again it answers the same |
| Backends.GenerateLoadBalancerBackends | pkg/qingcloud/loadbalancer_utils.go:303-321 | one request per node, under the instance id annotated on it or else its name, all with the node port the listener had before the protocol was overwritten |
| Backends.IdentifiesIff | pkg/qingcloud/loadbalancer_utils.go:26-36 | the id of a node is what its annotation says, or without one its name |
| Backends.EnoughAbsent | pkg/qingcloud/qingcloud_utils.go:164-176 | pigeonhole: nodes without a backend are at least as many as nodes less the backends on nodes, so no sample asks for too much |
| Backends.DiffBackend | pkg/qingcloud/qingcloud_utils.go:150-188 | deletes all backends on no node; under policy Cluster with a count that is not 0, deletes in addition a sample of the surplus or adds a sample of the missing; under any other policy or without a count adds all nodes that are missing |
| Backends.AllMovedIff | pkg/qingcloud/qingcloud_utils.go:178-186 | without a limit to delete are exactly the backends on no node and to add exactly the nodes without one |
| BackendLaws.SameLengthSeparate | pkg/qingcloud/loadbalancer_utils.go:544-562 | ids of one length are told apart by the substring test |
| BackendLaws.ConfusedIdsStarveSampling | pkg/qingcloud/qingcloud_utils.go:170-176 | a single backend whose name contains the ids of two nodes passes for both, and under a limit of all nodes more are asked for than are absent |
| BackendLaws.SamplingSucceedsIff | pkg/qingcloud/qingcloud_utils.go:164-176 | sampling never asks for more nodes than are absent, for all nodes and backends with ids in play, the nodes of the backends being there or gone, and for all limits, if and only if no id in play contains another |
| BackendLaws.MatchingIsEquality | pkg/qingcloud/loadbalancer_utils.go:544-562 | with ids told apart, the substring tests are tests for equality |
| BackendLaws.KeptAfterDelete | pkg/qingcloud/qingcloud_utils.go:153-168 | the deletion leaves the backends on nodes, or exactly the limit of them |
| BackendLaws.MinimalDisruption | pkg/qingcloud/qingcloud_utils.go:162-177 | of the backends on nodes exactly max(0, left - limit) go, and none when any is added |
| BackendLaws.DiffReaches | pkg/qingcloud/qingcloud_utils.go:150-188 | carrying the answer out puts backends on different nodes: on all of them, or on exactly as many as the limit says |
| BackendLaws.NothingToDoIffFits | pkg/qingcloud/qingcloud_utils.go:150-188 | the answer is empty if and only if the right nodes are behind the listener already |
| BackendLaws.FitsDeterminesNames | pkg/qingcloud/qingcloud_utils.go:178-185 | without a limit there are as many backends as nodes, and on exactly the nodes |
| BackendLaws.FullLimitIsNone | pkg/qingcloud/qingcloud_utils.go:162-185 | a limit of as many backends as there are nodes asks for the same backends as no limit |
| Listeners.ParseHeathyCheck | pkg/qingcloud/loadbalancer_utils.go:328-367 | the merged table gives every port its method and its option, each if configured; the error is that of the last annotation present |
| Listeners.DiffListeners | pkg/qingcloud/loadbalancer_utils.go:203-278 | to add are the ports no listener serves, to delete the listeners that serve no port, to keep the others, each in order, where serving is told from the annotation texts: the protocol annotated, https with exactly the annotated certificate among its own, checks, mode and numbers as annotated or by default, and backends on the node port |
| Listeners.GenerateLoadBalancerListeners | pkg/qingcloud/loadbalancer_utils.go:443-542 | fails exactly when an annotation does not parse, there is no port, a port is SCTP, or one annotated https has no certificate; otherwise one listener per port, made as the texts say: https with exactly its certificate and http behind it, http without one and with http behind it, tcp and udp as they are, else the protocol of the port |
| Listeners.GetProtocolSays | pkg/qingcloud/loadbalancer_utils.go:138-160 | which of the annotated texts lead to https, http, tcp and udp, and that no other does |
| Listeners.SuitsIff | pkg/qingcloud/loadbalancer_utils.go:229-240 | a listener passes the tests of the differ for a port if and only if it suits the annotation texts |
| Listeners.MadeForIff | pkg/qingcloud/loadbalancer_utils.go:455-538 | a listener is the one generated for a port if and only if it is as the annotation texts ask |
| Listeners.CanBeMadeIff | pkg/qingcloud/loadbalancer_utils.go:480-516 | a listener can be generated for a port if and only if it is TCP or UDP and, annotated https, has a certificate annotated |
| Listeners.DividedAsSaid | pkg/qingcloud/loadbalancer_utils.go:203-278 | what the differ adds, deletes and keeps, by the texts instead of its own tests |
| ListenerLaws.MatchIsAgreement | pkg/qingcloud/loadbalancer_utils.go:229-240 | the differ accepts a listener for a port if and only if it is, up to further certificates, the one the generator makes |
| ListenerLaws.GeneratedNeedNothing | pkg/qingcloud/loadbalancer_utils.go:203-278 | generated listeners with backends on their node ports leave the differ nothing to add and nothing to delete |
| ListenerLaws.DifferentPortsApart | pkg/qingcloud/loadbalancer_utils.go:518-534 | listeners for service ports take each other's place on a load balancer exactly when port and protocol are the same |
| ListenerLaws.NodePortFoundIff | pkg/qingcloud/loadbalancer_utils.go:287-298 | a listener finds its service port back if and only if the protocol annotation keeps the transport |
| ListenerLaws.MovedTransportHasNoNodePort | pkg/qingcloud/loadbalancer_utils.go:280-301 | a UDP port annotated as tcp is generated, yet its listener has no node port |
| ListenerLaws.ServesOnePort | pkg/qingcloud/loadbalancer_utils.go:257-265 | a listener matches only one service port |
| ListenerLaws.ServersMeet | pkg/qingcloud/loadbalancer_utils.go:229-237 | two listeners matching one port on one load balancer would clash |
| ListenerLaws.ValidatedConfig | pkg/qingcloud/loadbalancer_utils.go:211-216 | after validation none of the ignored parse errors can occur, and all timeouts and scenes are in range |
| CloudModel.ApplyValid | pkg/executor/client.go:44-71 | every accepted call keeps ids, references, the uniqueness of (load balancer, port, transport), and that no EIP is on two load balancers |
| CloudModel.Cloud.Invoke | pkg/executor/client.go:44-71 | one call is logged; it takes full effect or none, success means effect, and failure without a fault means it is not acceptable |
| CloudModel.Cloud.Snapshot | pkg/executor/lb.go:24-86 | what is read of a load balancer: attributes, EIPs, the allocated ones among them, its listeners each once, and its addresses: the private ones outside the cloud network that lead the list, then those of its EIPs |
| CloudModel.PrivateVIPsIff | pkg/executor/lb.go:31-40 | the private addresses seen are those before the first that begins with 198.19 |
| CloudModel.Cloud.LeadingVIPs | pkg/executor/lb.go:31-40 | the loop that stops at the first such address collects exactly these |
| CloudModel.Cloud.GetLoadBalancerByName | pkg/executor/lb.go:88-116 | a load balancer of exactly that name, of the account and pending, active or stopped, or proof that there is none |
| CloudModel.Cloud.GetLoadBalancerByID | pkg/executor/lb.go:118-138 | that load balancer, or proof that there is none |
| CloudModel.Cloud.GetListeners | pkg/executor/listener.go:10-21 | the listeners asked for, at most one page, all of them when they fit on it |
| CloudModel.Cloud.CreateListener | pkg/executor/listener.go:91-105 | one creation, then a read that may fail after the creation took effect |
| CloudModel.Cloud.CreateLB | pkg/executor/lb.go:158-198 | without network and EIP no call; otherwise one creation with the addresses asked for, and only a fault makes it fail when the EIPs are free |
| CloudModel.Cloud.CreateBackends | pkg/executor/backend.go:38-66 | no requests, no call; otherwise one call for the listener of the first |
| CloudModel.Cloud.AllocateEIP | pkg/executor/eip.go:82-117 | at most one new EIP under the controller's own name |
| CloudModel.Cloud.GetAvaliableEIPs | pkg/executor/eip.go:131-154 | exactly the EIPs of the account in associate mode 0 that no load balancer holds |
| Eips.PrepareEip | pkg/qingcloud/qingcloud_utils.go:13-51 | success gives an EIP nobody holds; only the pool can have changed, and only by growing; at most one EIP is allocated, and none where one on offer is to be used and there is one; without a fault it fails only under use-available with no EIP on offer, and then it always does |
| Eips.DiffLBEip | pkg/qingcloud/qingcloud_utils.go:53-105 | what to associate and what to dissociate, mode by mode, and when it fails |
| Eips.GoalSettles | pkg/qingcloud/qingcloud_utils.go:53-105 | the EIPs reached ask for nothing more: reaching the goal again changes nothing |
| Eips.PlannedGoal | pkg/qingcloud/qingcloud_utils.go:53-105 | carrying out what the differ answers reaches the goal of the configuration, and a settled load balancer gets an empty answer |
| Eips.PlannedFree | pkg/qingcloud/qingcloud_utils.go:64-93 | when the cloud has the EIPs the load balancer still needs, all EIPs to associate are free |
| Eips.CarriedNeeds | pkg/qingcloud/qingcloud_utils.go:64-136 | a plan is carried out only if every EIP it asks for could be had, and an EIP allocated for it is on the load balancer in the end |
| Eips.CarryOut | pkg/qingcloud/qingcloud_utils.go:121-136 | association precedes dissociation, so a load balancer that had an EIP and ends with one has one in every state between |
| Eips.UpdateLBEip | pkg/qingcloud/qingcloud_utils.go:107-148 | a reused load balancer is left alone; otherwise the EIPs become: the configured ones (replace), the union with them (no replace), non-empty (automatic modes), none (internal); settled EIPs cause no call; without a fault it fails only when an EIP cannot be had |
| Discipline.StepUntouched | pkg/qingcloud/qingcloud.go:251-312 | a disciplined call, whatever became of it, changes no listener, load balancer or user EIP that is not the run's own, and puts no listener on a load balancer that is not |
| Discipline.StepKeepsInv | pkg/qingcloud/loadbalancer_utils.go:204-209 | a disciplined call keeps the backends of every own listener on different known nodes and on one port |
| Discipline.RunIsSafe | pkg/qingcloud/qingcloud.go:211-575 | at every step of every run, also one cut short by a failure, nothing of others has changed and the invariant holds |
| Discipline.RunUntouched | pkg/qingcloud/qingcloud.go:211-575 | a whole run, complete or cut short, changes nothing that is not its own |
| Discipline.WithoutDeletion | pkg/qingcloud/qingcloud.go:211-456 | a run without the power to delete issues no deletion of a load balancer and no release of EIPs |
| Discipline.RunKeepsEips | pkg/qingcloud/qingcloud_utils.go:110-113 | a run without the power over EIPs leaves every load balancer with the EIPs it had, at every step |
| Discipline.NeverAllocates | pkg/qingcloud/qingcloud_utils.go:13-51 | a run without the power to allocate allocates no EIP; only reconciling EIPs, or choosing those of a new load balancer, has it |
| Discipline.RunIsFewer | pkg/qingcloud/qingcloud.go:391-575 | a run that creates nothing leaves no load balancer, name or listener that was not there before, wherever it broke off |
| Discipline.InvariantOverAllRuns | pkg/qingcloud/loadbalancer_utils.go:204-209 | over any history of runs of any services in any order the invariant of each service holds, so comparing only the first backend's port is sound |
| BackendRuns.RunRound | pkg/qingcloud/qingcloud.go:292-312 | delete, then add: success leaves exactly the right nodes, all on one port, behind this listener, and only backends of this listener change |
| BackendRuns.RoundKept | pkg/qingcloud/loadbalancer_utils.go:283-285 | copying the port of the first backend keeps all backends on one port |
| BackendRuns.ReconcileBackends | pkg/qingcloud/qingcloud.go:287-312 | the same for what the differ answers; when the right nodes are there already no call is made |
| BackendRuns.ReconcileAll | pkg/qingcloud/qingcloud.go:286-314 | success puts the right nodes behind every listener of the loop; unmodified means no call; only a fault or an unknown node port makes it fail |
| ListenerRuns.ConvergedIsBijection | pkg/qingcloud/loadbalancer_utils.go:203-278 | when converged, own listeners and service ports are paired off one to one |
| ListenerRuns.SubmitListeners | pkg/qingcloud/qingcloud.go:459-466 | one request for all listeners; success means they stand on top of what there was, without backends, and are the ones read back |
| ListenerRuns.PickNodes | pkg/qingcloud/qingcloud.go:468-478 | under Cluster with a count as many different nodes of those given, else all of them |
| ListenerRuns.FullPickTakesAll | pkg/qingcloud/qingcloud.go:468-478 | a sample of as many nodes as there are leaves none out |
| ListenerRuns.CreateListenersAndBackends | pkg/qingcloud/qingcloud.go:458-491 | success gives every port a new listener with the right backends and adds nothing else; when the listeners cannot be generated it fails before any call, otherwise only by a fault or a refusal |
| ListenerRuns.OneCreationAsks | pkg/qingcloud/qingcloud.go:458-466 | every listener asked for is as the annotation texts ask for one of the service ports |
| ListenerRuns.AllFilled | pkg/qingcloud/qingcloud.go:480-488 | filling all created listeners serves every port |
| SyncLaws.SyncConverges | pkg/qingcloud/qingcloud.go:266-314 | from any listeners whatever: dropping the stale, adding the missing and adjusting the kept ones converges |
| SyncLaws.ConvergedIsAtRest | pkg/qingcloud/qingcloud.go:266-319 | converged listeners with a node to serve from leave nothing to delete, to add or to adjust |
| SyncLaws.RestIffNodes | pkg/qingcloud/loadbalancer_utils.go:204-209 | converged is at rest if and only if there is a node; without one every listener is deleted and made anew |
| SyncLaws.DeleteBeforeAdd | pkg/qingcloud/qingcloud.go:267-284 | after the deletion no listener asked for takes a port and transport still held by an own one |
| SyncLaws.RefusedForOthers | pkg/qingcloud/qingcloud.go:277-284 | the cloud refuses the missing listeners only because somebody else's listener holds the port |
| SyncLaws.ConvergedUncontested | pkg/qingcloud/qingcloud.go:277-284 | where the service's listeners serve all its ports, no other's listener holds one of them |
| SyncLaws.ContestedStays | pkg/qingcloud/qingcloud.go:277-284 | a run leaves another's listener where it is: it is in the way afterwards if it was before, so such a run cannot have succeeded |
| SyncRuns.FilterListeners | pkg/qingcloud/loadbalancer_utils.go:87-97 | the ids of the listeners whose name has the prefix, in order |
| SyncRuns.FilterFindsOwn | pkg/qingcloud/qingcloud.go:251 | these are exactly the service's listeners on the load balancer, each once |
| SyncRuns.OwnPortsCount | pkg/qingcloud/qingcloud.go:266-284 | own listeners on the service ports are no more than the ports, because two on one port would clash |
| SyncRuns.AddedOnPorts | pkg/qingcloud/qingcloud.go:266-284 | once the stale listeners are gone, those kept and those added, all or some, are on the service ports |
| SyncRuns.TidyStaysSmall | pkg/qingcloud/qingcloud.go:266-314 | wherever a synchronisation breaks off, one page still holds the listeners of the service |
| SyncRuns.GeneratedIfMissing | pkg/qingcloud/qingcloud.go:277-284 | when the missing listeners could be generated, every port either can be generated or has a listener already |
| SyncRuns.ReplaceListeners | pkg/qingcloud/qingcloud.go:266-314 | success converges; it fails only by a fault or for another's listener; at rest there is no call; nothing outside the load balancer changes |
| SyncRuns.MakeListeners | pkg/qingcloud/qingcloud.go:253-258 | a service without listeners gets all of them, and no creation clashes with an own one |
| SyncRuns.SyncListeners | pkg/qingcloud/qingcloud.go:250-314 | the two cases together, on whatever the load balancer holds |
| Balancers.NeedUpdateAttr | pkg/qingcloud/loadbalancer_utils.go:53-84 | the attributes that differ from the configuration, and only those |
| Balancers.SettledLBIff | pkg/qingcloud/loadbalancer_utils.go:53-84 | settling attributes changes nothing if and only if they are settled, and leaves them so |
| Balancers.SettleAttr | pkg/qingcloud/qingcloud.go:235-242 | success settles node count and private address; settled attributes cause no call |
| Balancers.SettleBalancer | pkg/qingcloud/qingcloud.go:234-248 | attributes and EIPs are as configured, whether attributes were changed is whether they differed, and the listeners read are those of a load balancer the configuration names; broken off, what was settled stays so |
| Balancers.AddressSeen | pkg/qingcloud/qingcloud.go:234-248 | a run sees an address of its load balancer if and only if this can be told beforehand: it has one and its EIPs are settled, or it has one once attributes and EIPs are as configured |
| Balancers.LosesAddressIff | pkg/qingcloud/qingcloud_utils.go:95-99 | a load balancer with an address loses it if and only if it is not reused, becomes internal without an EIP annotation, and has EIPs but no other address |
| Balancers.ApplyChanges | pkg/qingcloud/qingcloud.go:366-370 | success leaves nothing pending and changes nothing else |
| EnsureRuns.SyncAndApply | pkg/qingcloud/qingcloud.go:250-372 | success converges; a change is left pending exactly when one was and there was nothing to do; at rest there is no call |
| EnsureRuns.RunCalls | pkg/qingcloud/qingcloud.go:231-372 | in every state of a run a load balancer that had an EIP and ends with one has one, and no listener is asked for where the service still holds the port |
| EnsureRuns.PendingInTheEnd | pkg/qingcloud/qingcloud.go:316-370 | a change is left pending exactly when one was, the attributes were settled and the listeners had converged |
| EnsureRuns.EnsureExisting | pkg/qingcloud/qingcloud.go:231-320 | success settles attributes, EIPs and listeners of the load balancer found, says exactly when a change is left pending, and answers its addresses; on a settled one there is no call; without a fault it fails only when an EIP cannot be had, a listener cannot be generated, another's listener is in the way, or it could be told beforehand that no address would be seen; and then it does fail, if there is more to do than to change EIPs; wherever it breaks off, names, other load balancers and the bound on own listeners stay |
| EnsureRuns.ChooseEips | pkg/qingcloud/qingcloud.go:325-331 | the configured EIPs, or one fetched for an automatic mode, which is noted in the configuration |
| EnsureRuns.CreateLBEffect | pkg/qingcloud/qingcloud.go:336-347 | the new load balancer has the name and attributes configured, and the EIPs that reconciling from none would lead to, also when an id is given, and nobody's listener is on it |
| EnsureRuns.EnsureNew | pkg/qingcloud/qingcloud.go:322-372 | success adds one load balancer, settled, with its addresses and nothing pending, and keeps the others; without a fault it fails only when network and EIP are missing, an EIP cannot be had, a listener cannot be generated, or the configuration gives no address and the cloud gave none on creation; it succeeds only when none of the first three is the case; an EIP it allocated is on the new load balancer; wherever it breaks off, at most one load balancer was added, as configured |
| UpdateRuns.ListeningConverges | pkg/qingcloud/qingcloud.go:419-443 | when the listeners match the ports, following the nodes converges |
| UpdateRuns.ConvergedListens | pkg/qingcloud/qingcloud.go:419-443 | what has converged matches the ports and follows the nodes |
| UpdateRuns.FollowNodes | pkg/qingcloud/qingcloud.go:419-455 | success puts the right nodes behind every listener and applies it; right nodes cause no call; without a fault it fails only for a listener without a node port, and with a node to serve from it always fails then |
| UpdateRuns.DoneKnowsPorts | pkg/qingcloud/loadbalancer_utils.go:280-301 | a listener with backends in the end had a node port: that of the backends it had, or that of a service port |
| UpdateRuns.UpdateFound | pkg/qingcloud/qingcloud.go:407-455 | only backends change and changes are applied: no listener comes, goes or is altered; with a node to serve from it fails without a fault exactly when some own listener has neither backends nor a service port |
| DeleteRuns.NoOthers | pkg/qingcloud/qingcloud.go:534 | the count of listeners less own ones is positive if and only if somebody else has a listener there |
| DeleteRuns.DeleteOwnListeners | pkg/qingcloud/qingcloud.go:536-552 | success removes exactly the own listeners of the load balancer and applies it; without any there is no call |
| DeleteRuns.GoneIsFree | pkg/qingcloud/qingcloud.go:562-569 | once its load balancer is deleted, the cloud accepts the release of the EIPs it had |
| DeleteRuns.DeleteBalancer | pkg/qingcloud/qingcloud.go:555-574 | success takes the load balancer, its listeners and exactly the EIPs it held and the controller had allocated; EIPs are released only after the deletion succeeded, only those the load balancer held and the controller had allocated |
| DeleteRuns.DeleteFound | pkg/qingcloud/qingcloud.go:531-575 | the load balancer is deleted exactly when it is not reused and all its listeners are the service's; success leaves no own listener, and of a deleted load balancer none of the EIPs allocated for it |
| Provider.QingCloud.GetLoadBalancer | pkg/qingcloud/qingcloud.go:172-193 | the load balancer the configuration names, proof that there is none, or an error |
| Provider.QingCloud.EnsureLoadBalancer | pkg/qingcloud/qingcloud.go:211-373 | whatever becomes of it, the run touches only its own, allocates at most one EIP and that only for a load balancer without any, deletes no load balancer and no EIP, changes no other load balancer, asks only for listeners as the annotation texts want them for a service port, and none where the service still holds the port, leaves a load balancer with an EIP in every state if it had and has one, and leaves a state as fit for the next run as the one it found (`StaysFit`); success fulfils the request, its EIPs included, from any state the invariant and `Manageable` allow, says exactly when a change is left pending, and answers the addresses; when nothing stands in the way (`Doable`) it fails only by a fault or for want of an address: of the load balancer found, as told beforehand (`Unaddressed`, and then it always fails), or of one made although the configuration gives no address and the cloud gave none; it never succeeds where an EIP still needed cannot be had, another's listener holds a port, or a missing listener cannot be generated (`Unobstructed`); at rest there is no call; with unusable annotations or nodes there is none either |
| Provider.QingCloud.EnsureFound | pkg/qingcloud/qingcloud.go:231-320 | the branch for a load balancer that was found, in terms of the request |
| Provider.QingCloud.EnsureMade | pkg/qingcloud/qingcloud.go:322-372 | the branch for a load balancer that is made, in terms of the request |
| Provider.FoundIsEnsureRun | pkg/qingcloud/qingcloud.go:231-320 | what the branch for an existing load balancer guarantees of attributes, EIPs and listeners is what the request is promised |
| Provider.FoundUnobstructed | pkg/qingcloud/qingcloud.go:231-320 | a run that succeeded found the EIPs it needed obtainable, no other's listener on its ports, and nothing missing that cannot be generated |
| Provider.MadeIsEnsureRun | pkg/qingcloud/qingcloud.go:322-372 | and so for the branch that makes one |
| Provider.FeasibleStays | pkg/qingcloud/qingcloud.go:231-320 | a run that breaks off leaves nothing in the way of the next one: the EIPs still needed are free or on offer, and no foreign listener has come |
| Provider.FoundStaysFit | pkg/qingcloud/qingcloud.go:231-320 | after any run on a load balancer found, the cloud is as manageable, the request as doable and the address as sure as before |
| Provider.MadeStaysFit | pkg/qingcloud/qingcloud.go:322-372 | and so after any run that set out to make one, whether or not the creation took effect |
| Provider.KeptStaysFit | pkg/qingcloud/qingcloud.go:391-456 | and so after any update |
| Provider.FewerStaysManageable | pkg/qingcloud/qingcloud.go:514-575 | and after any deletion the cloud is as manageable as before, for every configuration |
| Provider.QingCloud.UpdateLoadBalancer | pkg/qingcloud/qingcloud.go:391-456 | only backends are touched and changes applied; success makes all own listeners follow the nodes; when they do already there is no call; when every own listener has backends or a service port only a fault makes it fail, and with a node to serve from it never succeeds otherwise; wherever it breaks off, the state is as fit for the next run as it was |
| Provider.QingCloud.ParseServiceLBAndEIP | pkg/qingcloud/qingcloud_utils.go:212-224 | the configuration of a deletion: names, and the id exactly when the annotations say reuse-lb |
| Provider.QingCloud.GetLoadBalancerBeforeDelete | pkg/qingcloud/qingcloud_utils.go:193-208 | the load balancer a deletion is about, proof that there is none, or a fault |
| Provider.QingCloud.EnsureLoadBalancerDeleted | pkg/qingcloud/qingcloud.go:514-575 | success without a load balancer means there is none; otherwise nothing of the service is left on it, and if it went, exactly the EIPs allocated for it went with it; when clean there is no call; only a fault makes it fail; wherever it breaks off, nothing has been added |
| Provider.DoableFound | pkg/qingcloud/qingcloud.go:231-320 | when nothing stands in the way of the request, nothing stands in the way of the load balancer that is found |
| Provider.NewEnsured | pkg/qingcloud/qingcloud.go:215-218 | a load balancer just made fulfils the request, has nothing pending, and is found again exactly when no id is given, or it is that id |
| Outcomes.WellPlacedIff | pkg/qingcloud/qingcloud.go:578-655 | the backends of a listener are as the reconciler wants them if and only if, under Local, they are one on each given node with a pod; else one on each node bearing the labels; without labels and with a count that can be had exactly so many, on different nodes; with one that cannot the default count; else one on each node |
| Outcomes.ServesPortIff | pkg/qingcloud/qingcloud.go:266-314 | a listener serves a port in the sense of the convergence theorem if and only if it suits the texts and its backends are well placed and on the node port |
| Outcomes.DeliveredIff | pkg/qingcloud/qingcloud.go:266-314 | converged, told from annotation texts, ports, nodes and endpoints: a listener for every port and no other |
| Outcomes.EipsAsAskedIff | pkg/qingcloud/qingcloud_utils.go:53-105 | the goal for EIPs by the texts: ids with replace `true` give exactly these, ids without it these and the ones there were; a mode keeps what there is or gets one; internal has none |
| Outcomes.EnsureAsAnnotated | pkg/qingcloud/qingcloud.go:211-373 | a successful ensure run has brought about what the texts ask for, whatever there was before: listeners, backends, EIPs, node count, private address, and the name of the load balancer |
| Outcomes.AllocatesAsAnnotated | pkg/qingcloud/qingcloud_utils.go:13-51 | an EIP is allocated only in mode allocate, or in mode auto while none is on offer, at most once, however the run ends |
| Outcomes.UpdateAsAnnotated | pkg/qingcloud/qingcloud.go:391-456 | a successful update leaves the backends of every own listener well placed |
| Outcomes.FollowingIff | pkg/qingcloud/qingcloud.go:419-443 | following the nodes, told from the texts |
| Outcomes.LocalServesPods | pkg/qingcloud/qingcloud.go:585-600 | where backends are well placed under Local, each is on a node with a pod and each such node has one |
| Outcomes.ClusterServesSoMany | pkg/qingcloud/qingcloud.go:638-648 | where backends are well placed under Cluster, without labels and with an annotated number between 1 and the nodes given, they are exactly so many |
| Theorems.UserEipsKept | pkg/executor/lb.go:47-51 | over any history of runs an EIP the controller did not allocate is never released |
| Theorems.ReusedKeepsEips | pkg/qingcloud/qingcloud_utils.go:110-113 | at every step a reused load balancer exists and keeps its EIPs |
| Theorems.OneListenerPerPort | pkg/qingcloud/qingcloud.go:266-314 | when converged the service has as many listeners as ports |
| Theorems.FoundAgainIff | pkg/qingcloud/annotations.go:294-320 | the load balancer of a successful run is the one the next run finds if and only if no id is given or by now there is a load balancer of that id; otherwise one more was made |
| Theorems.EnsuredIsAtRest | pkg/qingcloud/qingcloud.go:316-319 | a successful run whose load balancer can be found again leaves the service at rest and within its limits |
| Theorems.EnsureTwice | pkg/qingcloud/qingcloud.go:237-319 | idempotence, unless the annotations give an id nobody has: after a success the next run for the same request issues no call and, without faults, succeeds |
| Theorems.EnsureAnother | pkg/qingcloud/qingcloud.go:215-218 | with an id nobody has, under policy exclusive, the next successful run makes another load balancer |
| Theorems.AttainableStays | pkg/qingcloud/qingcloud.go:211-373 | what a request asks of the cloud holds again after every run, and only a fault makes a run fail |
| Theorems.EnsureAfterFailure | pkg/qingcloud/qingcloud.go:211-373 | convergence after a failure: whatever a first run left half done, a second one that meets no fault fulfils the request |
| Theorems.EnsureUntilDone | pkg/qingcloud/qingcloud.go:211-373 | trying again ends as soon as one run meets no fault, and until then the request stays attainable |
| Theorems.PendingCanStay | pkg/qingcloud/qingcloud.go:316-319 | a request and a cloud with a pending change from which every run, whatever the network does, ends where it began |
| Theorems.RestStays | pkg/qingcloud/qingcloud.go:316-319 | every run that finds the service at rest leaves the cloud as it is |
| Theorems.EnsuredFollows | pkg/qingcloud/qingcloud.go:391-456 | after a successful ensure run the listeners follow the nodes already and nothing stands in the way of an update |
| Theorems.EnsureThenUpdate | pkg/qingcloud/qingcloud.go:391-456 | right after a successful ensure run an update run issues no call and, without faults, succeeds |
| Theorems.SamePortSameNodes | pkg/qingcloud/qingcloud.go:286-314 | two converged listeners for one port have backends on the same nodes and the node port, or under a limit on as many eligible ones |
| Theorems.UpdateAgreesWithEnsure | pkg/qingcloud/qingcloud.go:286-314 | an ensure run and an update run from one state whose listeners match the ports work on the same load balancer and leave each port with the same nodes, or under a limit with as many eligible ones |
| Theorems.DeletedIsClean | pkg/qingcloud/qingcloud.go:532-569 | what a successful deletion leaves gives a second one nothing to do |
| Theorems.DeleteTwice | pkg/qingcloud/qingcloud.go:514-575 | after a successful deletion the next one issues no call |
| Theorems.DeleteAfterFailure | pkg/qingcloud/qingcloud.go:514-575 | whatever a first deletion left half done, a second one that meets no fault leaves nothing to delete |
| Theorems.ReuseTargets | pkg/qingcloud/qingcloud_utils.go:218-222 | under reuse-lb ensure and deletion look for the same load balancer in every state |
| Theorems.EnsureThenDelete | pkg/qingcloud/qingcloud.go:211-553 | ensure then delete leaves a reused load balancer with exactly the foreign listeners and the EIPs it had |
| Theorems.MakeThenDelete | pkg/qingcloud/qingcloud.go:211-575 | ensure then delete of a load balancer of the service's own leaves the cloud as it was: no load balancer, no listener and no EIP is left behind, and none is lost but EIPs the controller had allocated |
| Theorems.SameTargetIff | pkg/qingcloud/qingcloud_utils.go:218-222 | ensure and deletion look for the same load balancer in every state if and only if the policy is reuse-lb, or exclusive without an id |
| Neighbours.OthersUnharmed | pkg/qingcloud/loadbalancer_utils.go:86-97 | after a run another service has exactly the listeners it had, with all their backends |
| Neighbours.NamesApart | pkg/qingcloud/annotations.go:320 | no run of one service makes a load balancer under the name another one looks for |
| Neighbours.OthersKeepManageable | pkg/qingcloud/annotations.go:294-324 | for any two services of a cluster, whatever their policies: a run of one, of any kind and cut short or not, leaves the cloud as manageable for the other as it was |
| Neighbours.OthersKeepReady | pkg/qingcloud/loadbalancer_utils.go:204-209 | and leaves what the other's runs require |
| Neighbours.TurnKeepsFit | pkg/qingcloud/qingcloud.go:231-320 | two services that reuse the load balancer of one id: an ensure run of one leaves it fit for the next run of either |
| Neighbours.RestAmongOthers | pkg/qingcloud/qingcloud.go:234-320 | a service at rest stays at rest, whatever becomes of another's ensure run, if its load balancer still has the node count and private address it asks for once the other has settled it; when the other's run succeeds, if and only if |
| Neighbours.RestAmongUpdates | pkg/qingcloud/qingcloud.go:391-456 | another's update never disturbs a service at rest |
| Neighbours.EnsureBoth | pkg/qingcloud/qingcloud.go:234-320 | two services that share a load balancer and ask for the same node count and address, where both ask for any, are both at rest once a run of each has succeeded |
| Neighbours.TurnChanges | pkg/qingcloud/qingcloud.go:235-242 | a successful run sets the node count, by a call if it was another one |
| Neighbours.TakeTurns | pkg/qingcloud/qingcloud.go:235-242 | two services that share a load balancer and ask for different node counts undo each other: however often they take turns, every successful run but the first issues a call |
| Neighbours.TakeRound | pkg/qingcloud/qingcloud.go:235-242 | one round of it: each sets the node count again, by a call |
| ServiceController.CleanIffNotFoundAgain | pkg/controllers/service/cloud_service_controller.go:94-128 | the controller steps in if and only if the deletion of the new snapshot would look elsewhere |
| ServiceController.ResponsibleTargetsOld | pkg/controllers/service/cloud_service_controller.go:110-124 | the snapshot that is deleted names the old load balancer and the old listener prefix, in every state |
| ServiceController.OldTargetedIff | pkg/controllers/service/cloud_service_controller.go:91-128 | a service that reused a load balancer is deleted from it if and only if it leaves type LoadBalancer |
| ServiceController.MoveBalancer | pkg/controllers/service/cloud_service_controller.go:91-106 | when it moves to another load balancer instead, the ensure run that follows leaves all listeners on the old one as they were, its own included |
| ServiceController.HandleServiceUpdate | pkg/controllers/service/cloud_service_controller.go:186-206 | deletes what the old snapshot has: success leaves nothing of the service on the load balancer it names and gives its id, or says that there is none; a clean cloud sees no call; only a fault makes it fail |
| ServiceController.CleanedThenDeleted | pkg/controllers/service/cloud_service_controller.go:94-206 | the old snapshot cleaned first, then the new one deleted: the service has left the old load balancer |
| ServiceController.DeletedThenCleaned | pkg/controllers/service/cloud_service_controller.go:94-206 | the same in the other order |
| ServiceController.CleanStays | pkg/controllers/service/cloud_service_controller.go:94-206 | what is clean for one snapshot of a service stays so when another is deleted |
| ServiceController.LeaveBalancer | pkg/controllers/service/cloud_service_controller.go:94-206 | the controller and Kubernetes delete both snapshots in either order: once both succeeded nothing of the service is on the old load balancer, all else there is as it was, and it stands unless the service's own name is on it and nobody else is; a further deletion has nothing to do |
| ServiceController.LeavesUnlessFault | pkg/controllers/service/cloud_service_controller.go:94-206 | without a fault both deletions succeed |
| ServiceController.DeletionLeavesOthers | pkg/controllers/service/cloud_service_controller.go:186-206 | however a deletion ends, no listener of others is gone or altered and nothing has been added |

## Left out

- The SDK calls, job waiting, polling and matching of error codes in `pkg/executor`: an interface method is one atomic call that may fail before or after taking effect.
- Informers, queues, workers, rate limiting and decoding of the configuration file: the endpoints of a service are an argument of a run (`Request.endpoints`), None standing for a failed lookup.
- Runs interleaved on one load balancer: the code takes no lock across controllers, and nothing is claimed about them.
- Security groups, tags, place groups, load balancer types and bandwidth: passed through without a decision.
- The `reuse` policy: its inner test never holds; a run that would make an unnamed load balancer under it is excluded by a precondition of `EnsureLoadBalancer`.
- Distribution of the random choice: only that samples are samples and that sampling ends.
- Clean-up after failures: an EIP allocated by a run that then fails stays allocated, listeners deleted before a generation error stay deleted, and what a failed run left pending waits for a run that changes something.
- `GetLoadBalancer` of the provider interface, `convertLoadBalancerStatus`, `TwoArrayEqual`, port and name lists: no decisions worth a statement; the VIPs themselves stand for the returned status.
- The private function `diffBackend` without a limit: not called; it is `DiffBackend` with no limit.
- Letter case outside ASCII in `strings.EqualFold`: service protocols and generated listener protocols are ASCII.
- Annotation keys: an enumeration instead of strings, with `OTHER` for the keys nobody reads.
- Update in place of listeners and backends: the listeners a run read are values until one is handed to the backend generator, which may overwrite its protocol; that copy is an object. The configuration is an object with one record field.
- The parse of protocol and certificate annotations at every comparison: they are parsed once per run of the differ; parsing is a function of the text.
- Ids and addresses made by the cloud: chosen by the environment for load balancers and EIPs, counted up for listeners and backends.
- CloudModel.Cloud.GetLoadBalancerByName: the search word the cloud filters by, and its page, are not modelled, only the exact comparison afterwards; owner and status are one flag, `listed`, that no call changes.
- CloudModel.Cloud.GetAvaliableEIPs: owner and associate mode are one flag, `offered`, that no call changes.
- Eips.UpdateLBEip: when two load balancers share a name the status read anew may be that of the other; the fixed-point statements assume one of that name.
