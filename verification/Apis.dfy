/** Kubernetes objects and cloud objects (pkg/apis/types.go), as plain values. */
module Apis {
  import opened Wrappers

  // ---------- Kubernetes ----------

  datatype Protocol = TCP | UDP | SCTP {
    /** `string(port.Protocol)`. */
    function Name(): string {
      match this
      case TCP => "TCP"
      case UDP => "UDP"
      case SCTP => "SCTP"
    }

    /** `strings.ToLower(string(port.Protocol))`. */
    function Lower(): string {
      match this
      case TCP => "tcp"
      case UDP => "udp"
      case SCTP => "sctp"
    }
  }

  datatype ServicePort = ServicePort(port: int, protocol: Protocol, nodePort: int)

  /** The annotations of a Service that the controller reads, and any other. */
  datatype Annotation =
    | NETWORK_TYPE  // service.beta.kubernetes.io/qingcloud-load-balancer-network-type
    | EIP_IDS  // service.beta.kubernetes.io/qingcloud-load-balancer-eip-ids
    | EIP_SOURCE  // service.beta.kubernetes.io/qingcloud-load-balancer-eip-source
    | EIP_REPLACE  // service.beta.kubernetes.io/qingcloud-load-balancer-eip-replace
    | VXNET_ID  // service.beta.kubernetes.io/qingcloud-load-balancer-vxnet-id
    | INTERNAL_IP  // service.beta.kubernetes.io/qingcloud-load-balancer-internal-ip
    | LB_ID  // service.beta.kubernetes.io/qingcloud-load-balancer-id
    | LB_POLICY  // service.beta.kubernetes.io/qingcloud-load-balancer-eip-strategy
    | LB_TYPE  // service.beta.kubernetes.io/qingcloud-load-balancer-type
    | LB_NODES  // service.beta.kubernetes.io/qingcloud-load-balancer-nodes
    | CHECK_METHOD  // service.beta.kubernetes.io/qingcloud-lb-listener-healthycheckmethod
    | CHECK_OPTION  // service.beta.kubernetes.io/qingcloud-lb-listener-healthycheckoption
    | BALANCE_MODE  // service.beta.kubernetes.io/qingcloud-lb-listener-balancemode
    | CERTIFICATE  // service.beta.kubernetes.io/qingcloud-lb-listener-cert
    | PROTOCOL  // service.beta.kubernetes.io/qingcloud-lb-listener-protocol
    | TIMEOUT  // service.beta.kubernetes.io/qingcloud-lb-listener-timeout
    | SCENE  // service.beta.kubernetes.io/qingcloud-lb-listener-scene
    | FORWARDFOR  // service.beta.kubernetes.io/qingcloud-lb-listener-forwardfor
    | LISTENER_OPTION  // service.beta.kubernetes.io/qingcloud-lb-listener-listeneroption
    | BACKEND_LABEL  // service.beta.kubernetes.io/qingcloud-lb-backend-label
    | BACKEND_COUNT  // service.beta.kubernetes.io/qingcloud-lb-backend-count
    | OTHER(key: string)

  /** `Unset` stands for any value other than the two Kubernetes defines. */
  datatype TrafficPolicy = Cluster | Local | Unset

  datatype Service = Service(
    ns: string,
    name: string,
    uid: string,
    annotations: map<Annotation, string>,
    isLoadBalancer: bool,
    policy: TrafficPolicy,
    ports: seq<ServicePort>)

  /** `instance` is the annotation `node.beta.kubernetes.io/instance-id`. */
  datatype Node = Node(name: string, instance: Option<string>, labels: map<string, string>)

  /** Endpoints: for every subset, the node names of its addresses. */
  type Endpoints = seq<seq<string>>

  // ---------- Cloud ----------

  /** Backend ids are opaque to the callers; the pair form makes an id name its listener. */
  datatype BackendID = BackendID(listener: nat, serial: nat)

  datatype Backend = Backend(id: BackendID, name: string, port: int, resource: string)

  /** A backend to be created; its port may be nil. */
  datatype BackendRequest = BackendRequest(listener: nat, name: string, port: Option<int>, resource: string)

  datatype ListenerSpec = ListenerSpec(
    lb: string,
    name: string,
    port: int,
    protocol: string,
    backendProtocol: string,
    balanceMode: string,
    checkMethod: string,
    checkOption: string,
    certificates: seq<string>,
    timeout: int,
    scene: int,
    forwardfor: int,
    option: int)

  datatype Listener = Listener(id: nat, spec: ListenerSpec, backends: seq<Backend>)

  datatype LBSpec = LBSpec(name: string, nodeCount: int, privateIPs: seq<string>, eips: seq<string>)

  datatype LBStatus = LBStatus(id: string, vip: seq<string>, createdEIPs: seq<string>, listeners: seq<Listener>)

  /** `*apis.LoadBalancer`: what a run read about its load balancer. */
  class LoadBalancer {
    var spec: LBSpec
    var status: LBStatus

    constructor (spec: LBSpec, status: LBStatus)
      ensures this.spec == spec && this.status == status
    {
      this.spec, this.status := spec, status;
    }
  }

  /** `*apis.LoadBalancerListener`: a run's own copy of one listener it read, which its steps may write to. */
  class LoadBalancerListener {
    const id: nat
    var spec: ListenerSpec
    const backends: seq<Backend>

    constructor (l: Listener)
      ensures Value() == l
    {
      id, spec, backends := l.id, l.spec, l.backends;
    }

    function Value(): Listener
      reads this
    {
      Listener(id, spec, backends)
    }
  }
}
