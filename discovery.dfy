/** The discovery module of the server (server/src/discovery/index.js): the
    directory `discoveryDB` of announced peers, its clean-up when the trust
    store forgets a peer, and the sampler that answers a discovery request
    with a window of directory keys. */
module Discovery {
  import opened Common
  import opened Wire
  import opened Store
  import opened Swarm

  /** How `Array.prototype.slice` reads one of its bounds: a negative bound
      counts from the end, and the result is clamped into the list. */
  function SliceIndex(i: int, len: nat): (r: nat)
    ensures r <= len
  {
    if i < 0 then (if len + i < 0 then 0 else len + i)
    else if i > len then len
    else i
  }

  /** `s.slice(start, end)`. */
  function JsSlice<T>(s: seq<T>, start: int, end: int): (r: seq<T>)
    ensures |r| <= |s|
  {
    var a, b := SliceIndex(start, |s|), SliceIndex(end, |s|);
    if a < b then s[a..b] else []
  }

  /** Within bounds, slice is the plain subsequence. */
  lemma JsSliceInBounds<T>(s: seq<T>, start: int, end: int)
    requires 0 <= start <= end <= |s|
    ensures JsSlice(s, start, end) == s[start..end]
  {
  }

  /** A negative start counts back from the end; an end equal to the length
      keeps the tail from there. */
  lemma JsSliceNegativeStart<T>(s: seq<T>, start: int)
    requires start < 0
    ensures JsSlice(s, start, |s|) == s[Max(0, |s| + start)..]
  {
  }

  /** The offset the handler draws, `Math.floor(Math.random() * length)`:
      an index of the directory, or 0 for an empty one. */
  predicate StartOffsetOk(r: int, len: nat) {
    (0 <= r < len) || (len == 0 && r == 0)
  }

  /** The decrement loop: starting from r, step back until the window of n
      keys no longer runs past the end, and end the window n keys later. */
  method WindowBounds(r: int, n: int, len: nat) returns (from: int, to: int)
    ensures from == Min(r, len - n)
    ensures to == from + n && to <= len
  {
    from := r;
    while from + n > len
      invariant from <= r
      invariant from == r || from + n >= len
      decreases from + n - len
    {
      from := from - 1;
    }
    to := from + n;
  }

  /** The candidate keys for a request of n peers at offset r, before the
      requester is dropped. */
  function Window(keys: seq<string>, r: int, n: int): (w: seq<string>)
    ensures |w| <= |keys|
    ensures forall k :: k in w ==> k in keys
  {
    var from := Min(r, |keys| - n);
    SliceMembers(keys, from, from + n);
    JsSlice(keys, from, from + n)
  }

  /** When the request fits, the window is the n keys from `min(r, L - n)`. */
  lemma WindowFits(keys: seq<string>, r: int, n: int)
    requires StartOffsetOk(r, |keys|) && 0 <= n <= |keys|
    ensures var from := Min(r, |keys| - n);
            0 <= from && from + n <= |keys| && Window(keys, r, n) == keys[from..from + n]
  {
    JsSliceInBounds(keys, Min(r, |keys| - n), Min(r, |keys| - n) + n);
  }

  /** When more peers are asked for than the directory holds, the start goes
      negative and slice counts it from the end: the window is the tail from
      `max(0, 2L - n)`, which holds `min(L, n - L)` keys. */
  lemma WindowOverflows(keys: seq<string>, r: int, n: int)
    requires StartOffsetOk(r, |keys|) && n > |keys|
    ensures Window(keys, r, n) == keys[Max(0, 2 * |keys| - n)..]
    ensures |Window(keys, r, n)| == Min(|keys|, n - |keys|)
  {
    JsSliceNegativeStart(keys, |keys| - n);
  }

  /** The addresses a peer announced, `pi.multiaddrs.toArray().map(a => a.buffer)`. */
  function Buffers(addrs: seq<Multiaddr>): (r: seq<Bytes>)
    ensures |r| == |addrs|
    ensures forall i :: 0 <= i < |addrs| ==> r[i] == addrs[i].buffer
  {
    seq(|addrs|, i requires 0 <= i < |addrs| => addrs[i].buffer)
  }

  /** `ids.map(id => ({id, multiaddr: discoveryDB.peek(id)}))`. */
  function Entries(dir: Db<seq<Bytes>>, ids: seq<string>): (r: seq<PeerEntry>)
    requires dir.Valid() && forall k :: k in ids ==> k in dir.vals
    ensures |r| == |ids|
    ensures forall i :: 0 <= i < |ids| ==> r[i] == PeerEntry(ids[i], dir.vals[ids[i]])
  {
    seq(|ids|, i requires 0 <= i < |ids| => PeerEntry(ids[i], dir.Get(ids[i]).value))
  }

  /** The handler of '/nodetrust/discovery/1.0.0' for a request of n peers,
      with r the drawn offset. A peer-info failure is answered with
      `{success: false}`; otherwise the answer lists the window's keys
      except the requester's, each with its stored addresses. The
      directory is only read. */
  method Discover(dir: Db<seq<Bytes>>, conn: Conn, n: int, r: int) returns (resp: DiscoveryResponse)
    requires dir.Valid() && StartOffsetOk(r, |dir.keys|)
    ensures conn.peerInfo.Failure? ==> resp == DiscoveryResponse(false, None)
    ensures conn.peerInfo.Success? ==>
              && resp.success && resp.peers.Some?
              && var peers, me := resp.peers.value, conn.peerInfo.value.id;
                 && |peers| == |Without(Window(dir.keys, r, n), me)|
                 && (forall i :: 0 <= i < |peers| ==>
                       && peers[i].id == Without(Window(dir.keys, r, n), me)[i]
                       && peers[i].id in dir.vals
                       && peers[i].multiaddr == dir.vals[peers[i].id])
                 && (forall e :: e in peers ==> e.id != me)
                 && (0 <= n ==> |peers| <= Min(n, |dir.keys| - (if me in dir.vals then 1 else 0)))
  {
    if conn.peerInfo.Failure? {
      return DiscoveryResponse(false, None);
    }
    var me := conn.peerInfo.value.id;
    var from, to := WindowBounds(r, n, |dir.keys|);
    var window := JsSlice(dir.keys, from, to);
    assert window == Window(dir.keys, r, n);
    var ids := Without(window, me);
    SampleFacts(dir, r, n, me);
    var peers := Entries(dir, ids);
    return DiscoveryResponse(true, Some(peers));
  }

  /** The sampled identities are directory keys other than the requester's,
      and no more than the bound allows. */
  lemma SampleFacts(dir: Db<seq<Bytes>>, r: int, n: int, me: string)
    requires dir.Valid() && StartOffsetOk(r, |dir.keys|)
    ensures var ids := Without(Window(dir.keys, r, n), me);
            && (forall k :: k in ids ==> k in dir.vals && k != me)
            && (0 <= n ==> |ids| <= Min(n, |dir.keys| - (if me in dir.vals then 1 else 0)))
  {
    var from := Min(r, |dir.keys| - n);
    SliceMembers(dir.keys, from, from + n);
    if 0 <= n {
      SampleBound(dir.keys, r, n, me);
    }
  }

  /** A window never holds more keys than were asked for. */
  lemma WindowSize(keys: seq<string>, r: int, n: int)
    requires StartOffsetOk(r, |keys|) && 0 <= n
    ensures |Window(keys, r, n)| <= n
  {
    if n <= |keys| {
      WindowFits(keys, r, n);
    } else {
      WindowOverflows(keys, r, n);
    }
  }

  /** The answer never holds more peers than were asked for, nor more than
      the directory holds besides the requester. */
  lemma SampleBound(keys: seq<string>, r: int, n: int, me: string)
    requires StartOffsetOk(r, |keys|) && 0 <= n
    ensures |Without(Window(keys, r, n), me)| <= Min(n, |keys| - (if me in keys then 1 else 0))
  {
    WindowSize(keys, r, n);
    var w := Window(keys, r, n);
    var from := Min(r, |keys| - n);
    var a, b := SliceIndex(from, |keys|), SliceIndex(from + n, |keys|);
    if me in keys && a < b {
      assert w == keys[a..b];
      var i :| 0 <= i < |keys| && keys[i] == me;
      if a <= i < b {
        assert w[i - a] == me;
      }
    }
  }

  /** Three peers X, Y, Z in the directory and Y asking for three: the
      answer is X and Z, whatever the offset. */
  lemma ThreePeerScenario(r: int)
    requires StartOffsetOk(r, 3)
    ensures Without(Window(["X", "Y", "Z"], r, 3), "Y") == ["X", "Z"]
  {
    var keys := ["X", "Y", "Z"];
    WindowFits(keys, r, 3);
    assert Window(keys, r, 3) == keys;
    assert keys[1..] == ["Y", "Z"] && keys[1..][1..] == ["Z"] && ["Z"][1..] == [];
  }

  /** Every key of a slice is a key of the list. */
  lemma SliceMembers(keys: seq<string>, from: int, to: int)
    ensures forall k :: k in JsSlice(keys, from, to) ==> k in keys
  {
    var a, b := SliceIndex(from, |keys|), SliceIndex(to, |keys|);
    if a < b {
      forall k | k in keys[a..b] ensures k in keys {
        var i :| a <= i < b && keys[i] == k;
      }
    }
  }

  /** An empty directory answers every request with an empty list. */
  lemma EmptyDirectoryAnswer(dir: Db<seq<Bytes>>, me: string, r: int, n: int)
    requires dir.Valid() && dir.keys == [] && StartOffsetOk(r, 0)
    ensures Window(dir.keys, r, n) == [] && Without(Window(dir.keys, r, n), me) == []
  {
  }

  /** What an announce does: its outcome and the directory afterwards. */
  datatype Announcement = Announcement(outcome: Outcome, dir: Db<seq<Bytes>>)

  /** The 'announce' handler on values: a peer-info error is passed on; a
      peer the trust store does not vouch for is rejected; in both cases the
      directory stays as it was. A trusted peer's entry is set to its
      addresses in order and no other entry changes. */
  function Announced(db: Db<bool>, dir: Db<seq<Bytes>>, conn: Conn): (a: Announcement)
    requires db.Valid() && dir.Valid()
    ensures a.dir.Valid() && a.dir.param == dir.param
    ensures a.outcome.Pass? <==> conn.peerInfo.Success? && Trusted(db, conn.peerInfo.value.id)
    ensures a.outcome.Fail? ==> a.dir == dir
    ensures conn.peerInfo.Failure? ==> a.outcome == Fail(conn.peerInfo.error)
    ensures conn.peerInfo.Success? && !Trusted(db, conn.peerInfo.value.id) ==>
              a.outcome == Fail(NotTrusted(conn.peerInfo.value.id))
    ensures a.outcome.Pass? ==>
              var id := conn.peerInfo.value.id;
              && a.dir.vals == dir.vals[id := Buffers(conn.peerInfo.value.multiaddrs)]
              && a.dir.keys == (if id in dir.vals then dir.keys else dir.keys + [id])
  {
    match conn.peerInfo
    case Failure(e) => Announcement(Fail(e), dir)
    case Success(pi) =>
      if !Trusted(db, pi.id) then Announcement(Fail(NotTrusted(pi.id)), dir)
      else Announcement(Pass, dir.Set(pi.id, Buffers(pi.multiaddrs)))
  }

  /** Announcing twice with the same addresses leaves the directory as one
      announce does. */
  lemma AnnounceIdempotent(db: Db<bool>, dir: Db<seq<Bytes>>, conn: Conn)
    requires db.Valid() && dir.Valid()
    ensures Announced(db, Announced(db, dir, conn).dir, conn) == Announced(db, dir, conn)
  {
    var a := Announced(db, dir, conn);
    if a.outcome.Pass? {
      var id := conn.peerInfo.value.id;
      assert a.dir.vals[id := Buffers(conn.peerInfo.value.multiaddrs)] == a.dir.vals;
    }
  }

  /** The 'announce' handler run on the swarm: the directory becomes what
      Announced says, and the directory keeps only trusted peers. */
  method Announce(s: Swarm, conn: Conn) returns (o: Outcome)
    requires s.Valid()
    modifies s`discoveryDB
    ensures s.Valid()
    ensures Announcement(o, s.discoveryDB) == Announced(s.db, old(s.discoveryDB), conn)
  {
    if conn.peerInfo.Failure? {
      return Fail(conn.peerInfo.error);
    }
    var pi := conn.peerInfo.value;
    if !Trusted(s.db, pi.id) {
      return Fail(NotTrusted(pi.id));
    }
    s.discoveryDB := s.discoveryDB.Set(pi.id, Buffers(pi.multiaddrs));
    return Pass;
  }

  /** The module's start-up: the `db` clean-up listener, then the 'announce'
      handler. */
  method Register(s: Swarm)
    modifies s`trustListeners, s`proto
    ensures s.trustListeners == old(s.trustListeners) + [DirectoryForgets]
    ensures s.proto == old(s.proto)["announce" := AnnounceHandler]
  {
    s.OnTrustEvict(DirectoryForgets);
    s.Handle("announce", AnnounceHandler);
  }
}
