/** Registered nodes, internal/registry/node.go. */
module Nodes {

  datatype NodeState = Unspecified | Init | Registered | Active | Suspect | Dead | Stopping

  datatype NodeType = TypeUnspecified | TypeHTTP2GW | TypeLogic | TypeMaster | TypeHTTP2Client | TypePerformance

  /** `services` lists the message types of each advertised service. */
  datatype Node = Node(
    id: nat,
    nodeType: NodeType,
    address: seq<char>,
    udpPort: nat,
    services: seq<seq<nat>>,
    state: NodeState,
    lastHeartbeatAt: int,
    load: nat,
    activeTransaction: nat)
}
