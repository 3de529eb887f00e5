/** The discovery client (src/index.js): a peer-discovery service that, while
    started, polls the rendezvous node for peers and emits one 'peer' event
    per address it is given. Timers are modelled by the handles they are
    registered under; the dial, the request and the answer are inputs. */
module Client {
  import opened Common
  import opened Wire

  /** The node to dial: the default rendezvous node (peer id `Qm` at
      `/dns/zero.libp2p-nodetrust.tk/tcp/443/wss/ipfs/Qm`), or a configured
      one. */
  datatype NodeRef = DefaultNode | GivenNode(peer: PeerInfo)

  /** The caller's configuration object, which the client keeps by
      reference: an absent number is None, and a number is falsy when it
      is 0. */
  class ClientOptions {
    var node: Option<PeerInfo>
    var discoveryPeers: Option<int>
    var intervalMS: Option<int>

    constructor (node: Option<PeerInfo>, discoveryPeers: Option<int>, intervalMS: Option<int>)
      ensures this.node == node && this.discoveryPeers == discoveryPeers
      ensures this.intervalMS == intervalMS
    {
      this.node := node;
      this.discoveryPeers := discoveryPeers;
      this.intervalMS := intervalMS;
    }
  }

  /** `x || d` on an optional number. */
  function OrNumber(x: Option<int>, d: int): (r: int)
    ensures x.Some? && x.value != 0 ==> r == x.value
    ensures x.None? || x.value == 0 ==> r == d
  {
    if x.Some? && x.value != 0 then x.value else d
  }

  /** A running `setInterval` timer. */
  datatype Timer = Timer(handle: nat, period: int)

  /** What `emit('peer', multiaddr(addr).decapsulate('ipfs'))` hands the
      listeners: the address read from its bytes with the `ipfs` part
      taken off (the address library is not part of this model). */
  datatype AddrTerm = Decapsulated(raw: Bytes)

  /** A discovery request that was sent: the node dialled and `numPeers`. */
  datatype Requested = Requested(node: NodeRef, numPeers: int)

  /** The events for one peer's addresses, in order. */
  function AddrEvents(addrs: seq<Bytes>): (r: seq<AddrTerm>)
    ensures |r| == |addrs|
    ensures forall j :: 0 <= j < |addrs| ==> r[j] == Decapsulated(addrs[j])
  {
    seq(|addrs|, j requires 0 <= j < |addrs| => Decapsulated(addrs[j]))
  }

  /** The events for a list of peers: each peer's addresses in turn. */
  function PeerEvents(peers: seq<PeerEntry>): seq<AddrTerm>
    decreases |peers|
  {
    if peers == [] then []
    else PeerEvents(peers[..|peers| - 1]) + AddrEvents(peers[|peers| - 1].multiaddr)
  }

  /** The number of addresses over all peers. */
  function AddrCount(peers: seq<PeerEntry>): nat
    decreases |peers|
  {
    if peers == [] then 0 else AddrCount(peers[..|peers| - 1]) + |peers[|peers| - 1].multiaddr|
  }

  /** The events of two lists of peers follow each other. */
  lemma {:induction false} PeerEventsAppend(a: seq<PeerEntry>, b: seq<PeerEntry>)
    ensures PeerEvents(a + b) == PeerEvents(a) + PeerEvents(b)
    ensures AddrCount(a + b) == AddrCount(a) + AddrCount(b)
    decreases |b|
  {
    if b == [] {
      assert a + b == a;
    } else {
      var b0, last := b[..|b| - 1], b[|b| - 1];
      var ab := a + b;
      assert ab[..|ab| - 1] == a + b0 && ab[|ab| - 1] == last;
      PeerEventsAppend(a, b0);
      assert PeerEvents(ab) == PeerEvents(a + b0) + AddrEvents(last.multiaddr);
      assert PeerEvents(b) == PeerEvents(b0) + AddrEvents(last.multiaddr);
      AppendAssoc(PeerEvents(a), PeerEvents(b0), AddrEvents(last.multiaddr));
    }
  }

  /** Exactly one event per address of each peer, and each event is one of
      the peers' addresses. */
  lemma {:induction false} PeerEventsCount(peers: seq<PeerEntry>)
    ensures |PeerEvents(peers)| == AddrCount(peers)
    ensures forall e :: e in PeerEvents(peers) ==>
              exists i :: 0 <= i < |peers| && e.raw in peers[i].multiaddr
    decreases |peers|
  {
    if peers != [] {
      var init := peers[..|peers| - 1];
      PeerEventsCount(init);
      var last := peers[|peers| - 1];
      forall e | e in PeerEvents(peers)
        ensures exists i :: 0 <= i < |peers| && e.raw in peers[i].multiaddr
      {
        if e in PeerEvents(init) {
          var i :| 0 <= i < |init| && e.raw in init[i].multiaddr;
          assert peers[i] == init[i];
        } else {
          assert e in AddrEvents(last.multiaddr);
          var j :| 0 <= j < |last.multiaddr| && AddrEvents(last.multiaddr)[j] == e;
          assert e.raw == last.multiaddr[j];
        }
      }
    }
  }

  /** The running timers without the one under handle h. */
  function ClearTimer(ts: seq<Timer>, h: Option<nat>): (r: seq<Timer>)
    ensures |r| <= |ts|
    ensures forall t :: t in r <==> t in ts && (h.None? || t.handle != h.value)
    decreases |ts|
  {
    if ts == [] then []
    else
      var rest := ClearTimer(ts[1..], h);
      assert forall t :: t in ts <==> t == ts[0] || t in ts[1..];
      if h.Some? && ts[0].handle == h.value then rest else [ts[0]] + rest
  }

  /** Clearing a handle no timer holds changes nothing. */
  lemma {:induction false} ClearAbsent(ts: seq<Timer>, h: nat)
    requires forall i :: 0 <= i < |ts| ==> ts[i].handle != h
    ensures ClearTimer(ts, Some(h)) == ts
    decreases |ts|
  {
    if ts != [] {
      ClearAbsent(ts[1..], h);
    }
  }

  /** Clearing distributes over the two halves of the running list. */
  lemma {:induction false} ClearAppend(a: seq<Timer>, b: seq<Timer>, h: Option<nat>)
    ensures ClearTimer(a + b, h) == ClearTimer(a, h) + ClearTimer(b, h)
    decreases |a|
  {
    if a == [] {
      assert a + b == b;
    } else {
      assert (a + b)[1..] == a[1..] + b;
      ClearAppend(a[1..], b, h);
    }
  }

  /** `start` then `stop` leaves the running timers as before. */
  lemma StartStop(ts: seq<Timer>, h: nat, period: int)
    requires forall i :: 0 <= i < |ts| ==> ts[i].handle < h
    ensures ClearTimer(ts + [Timer(h, period)], Some(h)) == ts
  {
    ClearAppend(ts, [Timer(h, period)], Some(h));
    ClearAbsent(ts, h);
  }

  /** `stop` clears only the handle of the latest `start`; after two
      starts and a stop the first timer keeps running. */
  lemma StartStartStop(ts: seq<Timer>, h: nat, period: int)
    requires forall i :: 0 <= i < |ts| ==> ts[i].handle < h
    ensures ClearTimer(ts + [Timer(h, period)] + [Timer(h + 1, period)], Some(h + 1))
         == ts + [Timer(h, period)]
  {
    var first := ts + [Timer(h, period)];
    assert forall i :: 0 <= i < |first| ==> first[i].handle < h + 1;
    StartStop(first, h + 1, period);
  }

  class NodeTrustDiscovery {
    const node: NodeRef
    const discoveryPeers: int
    const config: ClientOptions
    var started: bool
    var interval: Option<nat>
    var timers: seq<Timer>
    var nextHandle: nat
    var callbacks: nat
    var emitted: seq<AddrTerm>
    var sent: seq<Requested>

    /** Every running timer has a handle below the next one. */
    ghost predicate Valid()
      reads this
    {
      forall i :: 0 <= i < |timers| ==> timers[i].handle < nextHandle
    }

    /** `config.node || defaultNode` and `config.discoveryPeers || 20` are
        read once; the configuration object itself is kept, and its
        `intervalMS` is read again at every `start`. */
    constructor (config: ClientOptions)
      ensures Valid()
      ensures node == (if config.node.Some? then GivenNode(config.node.value) else DefaultNode)
      ensures discoveryPeers == OrNumber(config.discoveryPeers, 20)
      ensures this.config == config
      ensures !started && interval.None? && timers == [] && callbacks == 0
      ensures emitted == [] && sent == []
    {
      node := if config.node.Some? then GivenNode(config.node.value) else DefaultNode;
      discoveryPeers := OrNumber(config.discoveryPeers, 20);
      this.config := config;
      started := false;
      interval := None;
      timers := [];
      nextHandle := 0;
      callbacks := 0;
      emitted := [];
      sent := [];
    }

    /** `start(cb)`: set the flag, start polling with period
        `config.intervalMS || 1000` as the configuration says now, remember
        the new timer's handle in place of the old one, and call back once. */
    method Start()
      requires Valid()
      modifies this`started, this`interval, this`timers, this`nextHandle, this`callbacks
      ensures Valid()
      ensures started
      ensures timers == old(timers) + [Timer(old(nextHandle), OrNumber(config.intervalMS, 1000))]
      ensures interval == Some(old(nextHandle)) && nextHandle == old(nextHandle) + 1
      ensures callbacks == old(callbacks) + 1
    {
      started := true;
      timers := timers + [Timer(nextHandle, OrNumber(config.intervalMS, 1000))];
      interval := Some(nextHandle);
      nextHandle := nextHandle + 1;
      callbacks := callbacks + 1;
    }

    /** `stop(cb)`: clear the flag and the remembered timer, and call back
        once. */
    method Stop()
      requires Valid()
      modifies this`started, this`timers, this`callbacks
      ensures Valid()
      ensures !started
      ensures timers == ClearTimer(old(timers), interval)
      ensures callbacks == old(callbacks) + 1
    {
      started := false;
      timers := ClearTimer(timers, interval);
      callbacks := callbacks + 1;
    }

    /** `_handle`: nothing while stopped; otherwise one event per address of
        each peer, peer by peer, address by address. */
    method Handle(peers: seq<PeerEntry>)
      modifies this`emitted
      ensures emitted == old(emitted) + (if started then PeerEvents(peers) else [])
    {
      if !started {
        assert old(emitted) + [] == old(emitted);
        return;
      }
      var i := 0;
      while i < |peers|
        invariant 0 <= i <= |peers|
        invariant emitted == old(emitted) + PeerEvents(peers[..i])
      {
        var addrs := peers[i].multiaddr;
        var j := 0;
        while j < |addrs|
          invariant 0 <= j <= |addrs|
          invariant emitted == old(emitted) + PeerEvents(peers[..i]) + AddrEvents(addrs[..j])
        {
          assert AddrEvents(addrs[..j + 1]) == AddrEvents(addrs[..j]) + [Decapsulated(addrs[j])];
          emitted := emitted + [Decapsulated(addrs[j])];
          j := j + 1;
        }
        assert addrs[..j] == addrs;
        assert peers[..i + 1][..i] == peers[..i];
        AppendAssoc(old(emitted), PeerEvents(peers[..i]), AddrEvents(addrs));
        i := i + 1;
      }
      assert peers[..i] == peers;
    }

    /** `_doDiscovery(numPeers, cb)`: a falsy numPeers becomes
        `discoveryPeers`; a dial error ends the call before any request; a
        transport error, an unsuccessful answer or one without peers is an
        error and nothing is emitted; otherwise the peers are handed to
        `_handle` and then to the callback. */
    method DoDiscovery(numPeers: Option<int>, dial: Outcome, answer: Result<DiscoveryResponse>)
        returns (r: Result<seq<PeerEntry>>)
      modifies this`emitted, this`sent
      ensures dial.Fail? ==> r == Failure(dial.error) && sent == old(sent) && emitted == old(emitted)
      ensures dial.Pass? ==> sent == old(sent) + [Requested(node, OrNumber(numPeers, discoveryPeers))]
      ensures dial.Pass? && answer.Failure? ==> r == Failure(answer.error) && emitted == old(emitted)
      ensures dial.Pass? && answer.Success? && (!answer.value.success || answer.value.peers.None?) ==>
                r == Failure(IncompleteDiscovery) && emitted == old(emitted)
      ensures dial.Pass? && answer.Success? && answer.value.success && answer.value.peers.Some? ==>
                && r == Success(answer.value.peers.value)
                && emitted == old(emitted) + (if started then PeerEvents(answer.value.peers.value) else [])
    {
      var n := OrNumber(numPeers, discoveryPeers);
      if dial.Fail? {
        return Failure(dial.error);
      }
      sent := sent + [Requested(node, n)];
      if answer.Failure? {
        return Failure(answer.error);
      }
      var res := answer.value;
      if !res.success || res.peers.None? {
        return Failure(IncompleteDiscovery);
      }
      Handle(res.peers.value);
      return Success(res.peers.value);
    }

    /** One firing of a running polling timer: `_doDiscovery` with no
        arguments. */
    method Tick(dial: Outcome, answer: Result<DiscoveryResponse>) returns (r: Result<seq<PeerEntry>>)
      requires timers != []
      modifies this`emitted, this`sent
      ensures dial.Pass? ==> sent == old(sent) + [Requested(node, discoveryPeers)]
      ensures dial.Fail? ==> sent == old(sent) && emitted == old(emitted) && r == Failure(dial.error)
      ensures dial.Pass? && answer.Failure? ==> r == Failure(answer.error) && emitted == old(emitted)
      ensures dial.Pass? && answer.Success? && (!answer.value.success || answer.value.peers.None?) ==>
                r == Failure(IncompleteDiscovery) && emitted == old(emitted)
      ensures dial.Pass? && answer.Success? && answer.value.success && answer.value.peers.Some? ==>
                && r == Success(answer.value.peers.value)
                && emitted == old(emitted) + (if started then PeerEvents(answer.value.peers.value) else [])
      // A timer left running after `stop()` still dials, but emits nothing.
      ensures !started ==> emitted == old(emitted)
    {
      r := DoDiscovery(None, dial, answer);
    }
  }
}
