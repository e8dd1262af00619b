/** The status payload of a node agent, decoded from the wire, and its thin overview. */
module NodeStatusTypes {
  import opened Prelude

  datatype NodeInfo = NodeInfo(name: string, facts: int)

  datatype Tunnel = Tunnel(
    protocol: string, iface: string, publicKey: string, endpoint: string,
    rxBytes: int, txBytes: int, lastHandshake: Option<Time>)

  datatype PeerHealth = PeerHealth(enabled: bool, status: string, uptime: string, rtt: string)

  datatype Peer = Peer(name: string, siteName: string, tunnel: Tunnel, health: Option<PeerHealth>)

  /** A SHA-256 digest of the ordered peer identities of one topology. */
  type Digest = string

  /** A nil slice is None; it differs from an empty one on the wire. */
  datatype NodeStatus = NodeStatus(
    timestamp: Time,
    nodeInfo: NodeInfo,
    peers: Option<seq<Peer>>,
    routingTable: seq<int>,
    healthCheck: Option<int>,
    nodeErrors: Option<seq<string>>,
    fetchError: string,
    lastPushTime: Option<Time>,
    statusSource: string,
    nodePodInfo: Option<int>,
    bpfEntries: Option<seq<int>>)

  /** A pointer to an immutable status: pointer equality is equality of `addr`. */
  datatype StatusPtr = StatusPtr(addr: nat, value: NodeStatus)

  /** Counts observed by the node or derived from a full status. */
  datatype Facts = Facts(
    peerCount: int, healthyPeers: int, routeCount: int,
    routeMismatchCount: int, routeMismatch: bool, unhealthyPeerLinks: int, usesIPIP: bool)

  const NO_FACTS := Facts(0, 0, 0, 0, false, 0, false)

  datatype Overview = Overview(
    timestamp: Time,
    nodeInfo: NodeInfo,
    healthCheck: Option<int>,
    nodeErrors: Option<seq<string>>,
    fetchError: string,
    lastPushTime: Option<Time>,
    statusSource: string,
    nodePodInfo: Option<int>,
    facts: Facts)

  /** The counting half of the projection depends on unmodelled health rules, so it is a parameter. */
  type Counting = (NodeStatus, Time) -> Facts

  function OverviewFromStatus(count: Counting, status: NodeStatus, now: Time): Overview {
    Overview(status.timestamp, status.nodeInfo, status.healthCheck, status.nodeErrors, status.fetchError,
             status.lastPushTime, status.statusSource, status.nodePodInfo, count(status, now))
  }

  /** The lightweight status kept beside an overview: no peers, routes or BPF entries. */
  function OverviewMetadata(o: Overview): NodeStatus {
    NodeStatus(o.timestamp, o.nodeInfo, None, [], o.healthCheck, o.nodeErrors, o.fetchError,
               o.lastPushTime, o.statusSource, o.nodePodInfo, None)
  }
}
