/** The logical shapes of what the peers exchange and of what the transport
    hands a handler. The binary codec (`./protos`) and the libp2p libraries
    are not part of this model: an address is given by the two renderings
    the handlers use, and a connection by the answers its queries give. */
module Wire {
  import opened Common

  type Bytes = seq<bv8>

  /** A multiaddr as the handlers see it: `addr.toString()` and `addr.buffer`. */
  datatype Multiaddr = Multiaddr(text: string, buffer: Bytes)

  /** `pi.id.toB58String()` and `pi.multiaddrs.toArray()`. */
  datatype PeerInfo = PeerInfo(id: string, multiaddrs: seq<Multiaddr>)

  /** A connection, by the answers of `getPeerInfo` and `getObservedAddrs`. */
  datatype Conn = Conn(peerInfo: Result<PeerInfo>, observed: Result<seq<Multiaddr>>)

  /** One element of a discovery answer: `{id, multiaddr}`. */
  datatype PeerEntry = PeerEntry(id: string, multiaddr: seq<Bytes>)

  /** `{success, peers}`; `peers` is absent on `{success: false}`. */
  datatype DiscoveryResponse = DiscoveryResponse(success: bool, peers: Option<seq<PeerEntry>>)

  /** An admission answer: the success flag, the certificate authority's other
      fields (opaque), and the `dns` field that `nodetrust` adds. */
  datatype Response = Response(success: bool, fields: map<string, Bytes>, dns: Option<string>)

  /** `{success: false}` and `{success: true}` with nothing else. */
  const Refused := Response(false, map[], None)
  const Accepted := Response(true, map[], None)
}
