/** The shared server state (`swarm` in server/src/index.js): the trust store
    `db`, the two dependent stores `discoveryDB` and `dnsDB`, the 'evict'
    listeners registered on each, the handler registry `proto`, the DNS
    `ready` flag, and a trace of the observable effects (evict emissions,
    CN lookups and DNS provider calls) in the order they happen. */
module Swarm {
  import opened Common
  import opened Wire
  import opened Store

  datatype RecordType = A | AAAA

  /** `{name, type, value}`; a type or value that JavaScript leaves
      `undefined` is None. */
  datatype DnsRecord = DnsRecord(name: string, rtype: Option<RecordType>, value: Option<string>)

  datatype StoreName = Trust | Directory | Owners

  /** One observable effect. */
  datatype Event =
    | Evicted(store: StoreName, key: string)  // an 'evict' emission on a store
    | CnQuery(id: string)                     // swarm.getCN(id)
    | GetNames                                // provider getNames
    | ClearDomain(name: string)               // provider clearDomain
    | AddNames(records: seq<DnsRecord>)       // provider addNames

  /** The 'evict' listeners registered on `db`: the DNS module's (forget the
      DNS owner entry, server/src/dns/index.js:20-23) and the discovery
      module's (forget the directory entry, server/src/discovery/index.js:11-14). */
  datatype TrustListener = OwnersForget | DirectoryForgets

  /** The 'evict' listener registered on `dnsDB`: clean up the peer's DNS
      records (server/src/dns/index.js:33-39). */
  datatype KeyListener = ClearDomainOf

  /** What `swarm.handle` can register. */
  datatype Handler = CaHandler | DnsHandler | AnnounceHandler

  /** A value snapshot of the state the handlers read. */
  datatype View = View(
    db: Db<bool>,
    directory: Db<seq<Bytes>>,
    owners: Db<bool>,
    ready: bool,
    zone: string,
    buildCN: (string, string) -> Result<string>)
  {
    ghost predicate Valid() {
      db.Valid() && directory.Valid() && owners.Valid()
    }

    /** `swarm.getCN(id)`: the canonical name of a peer in the zone. */
    function GetCN(id: string): Result<string> { buildCN(id, zone) }
  }

  /** The trust gate `db.get(id)`: the stored marker is truthy. */
  predicate Trusted(db: Db<bool>, id: string)
    requires db.Valid()
  {
    db.Get(id) == Some(true)
  }

  /** What one `dnsDB`-style listener does when its store evicts k. The
      clearDomain answer is only logged, so it does not appear. */
  function KeyListenerEvents(l: KeyListener, k: string, cn: Result<string>): seq<Event> {
    match l
    case ClearDomainOf => [CnQuery(k)] + (if cn.Success? then [ClearDomain(cn.value)] else [])
  }

  /** The effects of emitting 'evict' for k to listeners ls, in order. */
  function KeyEvents(ls: seq<KeyListener>, k: string, cn: Result<string>): seq<Event>
    decreases |ls|
  {
    if ls == [] then []
    else KeyEvents(ls[..|ls| - 1], k, cn) + KeyListenerEvents(ls[|ls| - 1], k, cn)
  }

  /** What one `db` listener does when `db` evicts k: remove k from its own
      store and re-emit 'evict' on that store. */
  function TrustListenerEvents(l: TrustListener, k: string, owners: seq<KeyListener>,
                               directory: seq<KeyListener>, cn: Result<string>): seq<Event> {
    match l
    case OwnersForget => [Evicted(Owners, k)] + KeyEvents(owners, k, cn)
    case DirectoryForgets => [Evicted(Directory, k)] + KeyEvents(directory, k, cn)
  }

  /** The effects of emitting 'evict' for k on `db` to listeners ls, in order. */
  function TrustEvents(ls: seq<TrustListener>, k: string, owners: seq<KeyListener>,
                       directory: seq<KeyListener>, cn: Result<string>): seq<Event>
    decreases |ls|
  {
    if ls == [] then []
    else
      TrustEvents(ls[..|ls| - 1], k, owners, directory, cn)
      + TrustListenerEvents(ls[|ls| - 1], k, owners, directory, cn)
  }

  lemma TrustEventsStep(ls: seq<TrustListener>, i: nat, k: string, owners: seq<KeyListener>,
                        directory: seq<KeyListener>, cn: Result<string>)
    requires i < |ls|
    ensures TrustEvents(ls[..i + 1], k, owners, directory, cn)
         == TrustEvents(ls[..i], k, owners, directory, cn)
            + TrustListenerEvents(ls[i], k, owners, directory, cn)
    ensures forall l :: l in ls[..i + 1] <==> l in ls[..i] || l == ls[i]
  {
    assert ls[..i + 1][..i] == ls[..i];
    assert ls[..i + 1] == ls[..i] + [ls[i]];
  }

  /** How one listener moves a store along: a store is either untouched or has
      lost k, according to whether its listener has run yet. */
  lemma CascadeStep<V>(ls: seq<TrustListener>, i: nat, l: TrustListener, d0: Db<V>, k: string, cur: Db<V>)
    requires i < |ls| && d0.Valid()
    requires cur == if l in ls[..i] then d0.Remove(k) else d0
    ensures cur.Valid()
    ensures (if ls[i] == l then cur.Remove(k) else cur)
         == (if l in ls[..i + 1] then d0.Remove(k) else d0)
  {
    assert ls[..i + 1] == ls[..i] + [ls[i]];
    RemoveTwice(d0, k);
  }

  /** The listeners as the modules register them, in `require` order
      (server/src/index.js:65-66). */
  const StandardTrustListeners := [OwnersForget, DirectoryForgets]
  const StandardOwnerListeners := [ClearDomainOf]

  /** With the standard wiring an eviction from the trust store empties the
      owner entry first, issues exactly one CN lookup and at most one
      clearDomain for the peer, and ends by re-emitting on the directory. */
  lemma {:induction false} StandardCascade(k: string, cn: Result<string>)
    ensures TrustEvents(StandardTrustListeners, k, StandardOwnerListeners, [], cn)
         == [Evicted(Owners, k), CnQuery(k)]
            + (if cn.Success? then [ClearDomain(cn.value)] else [])
            + [Evicted(Directory, k)]
  {
    var ls := StandardTrustListeners;
    assert ls[..1] == [OwnersForget] && ls[..1][..0] == [];
    assert StandardOwnerListeners[..0] == [];
    assert KeyEvents(StandardOwnerListeners, k, cn) == KeyListenerEvents(ClearDomainOf, k, cn);
    assert KeyEvents([], k, cn) == [];
    assert TrustEvents(ls[..1], k, StandardOwnerListeners, [], cn)
        == [Evicted(Owners, k)] + KeyEvents(StandardOwnerListeners, k, cn);
  }

  class Swarm {
    const zone: string
    const buildCN: (string, string) -> Result<string>
    const dbParam: DbParam
    var db: Db<bool>
    var discoveryDB: Db<seq<Bytes>>
    var dnsDB: Db<bool>
    var trustListeners: seq<TrustListener>
    var ownerListeners: seq<KeyListener>
    var directoryListeners: seq<KeyListener>
    var ready: bool
    var proto: map<string, Handler>
    var trace: seq<Event>

    /** The stores are well formed, the directory cascade is registered, and
        every directory entry belongs to a trusted peer. */
    ghost predicate Valid()
      reads this
    {
      && db.Valid() && discoveryDB.Valid() && dnsDB.Valid()
      && DirectoryForgets in trustListeners
      && discoveryDB.vals.Keys <= db.vals.Keys
      && (forall k | k in discoveryDB.vals :: Trusted(db, k))
    }

    /** The swarm before any module has registered anything; all three
        stores share one parameter (server/src/index.js:48-56). */
    constructor (zone: string, buildCN: (string, string) -> Result<string>, dbParam: DbParam)
      ensures this.zone == zone && this.buildCN == buildCN && this.dbParam == dbParam
      ensures db == Empty(dbParam) && discoveryDB == Empty(dbParam) && dnsDB == Empty(dbParam)
      ensures trustListeners == [] && ownerListeners == [] && directoryListeners == []
      ensures !ready && proto == map[] && trace == []
    {
      this.zone := zone;
      this.buildCN := buildCN;
      this.dbParam := dbParam;
      db := Empty(dbParam);
      discoveryDB := Empty(dbParam);
      dnsDB := Empty(dbParam);
      trustListeners := [];
      ownerListeners := [];
      directoryListeners := [];
      ready := false;
      proto := map[];
      trace := [];
    }

    function Snapshot(): (v: View)
      reads this
    {
      View(db, discoveryDB, dnsDB, ready, zone, buildCN)
    }

    /** `swarm.handle(proto, hand)`: the latest registration wins. */
    method Handle(p: string, h: Handler)
      modifies this`proto
      ensures proto == old(proto)[p := h]
    {
      proto := proto[p := h];
    }

    /** `db.on('evict', …)`. */
    method OnTrustEvict(l: TrustListener)
      modifies this`trustListeners
      ensures trustListeners == old(trustListeners) + [l]
    {
      trustListeners := trustListeners + [l];
    }

    /** `dnsDB.on('evict', …)`. */
    method OnOwnerEvict(l: KeyListener)
      modifies this`ownerListeners
      ensures ownerListeners == old(ownerListeners) + [l]
    {
      ownerListeners := ownerListeners + [l];
    }

    /** Trust admission, done by the certificate authority (`./ca`, not part
        of this model): `db.set(id, marker)` with a truthy marker. */
    method Admit(id: string)
      requires Valid()
      modifies this`db
      ensures Valid()
      ensures db == old(db).Set(id, true)
    {
      db := db.Set(id, true);
    }

    /** `dnsDB.emit('evict', {key})` or `discoveryDB.emit('evict', {key})`:
        every listener of that store runs, in registration order. */
    method EmitKey(store: StoreName, k: string)
      requires store != Trust
      modifies this`trace
      ensures trace == old(trace) + ([Evicted(store, k)]
                       + KeyEvents(if store == Owners then ownerListeners else directoryListeners,
                                   k, buildCN(k, zone)))
    {
      var ls := if store == Owners then ownerListeners else directoryListeners;
      var cn := buildCN(k, zone);
      trace := trace + [Evicted(store, k)];
      var i := 0;
      while i < |ls|
        invariant 0 <= i <= |ls|
        invariant trace == (old(trace) + [Evicted(store, k)]) + KeyEvents(ls[..i], k, cn)
      {
        assert ls[..i + 1][..i] == ls[..i];
        match ls[i]
        case ClearDomainOf =>
          trace := trace + [CnQuery(k)];
          if cn.Success? {
            trace := trace + [ClearDomain(cn.value)];
          }
        i := i + 1;
      }
      assert ls[..|ls|] == ls;
      AppendAssoc(old(trace), [Evicted(store, k)], KeyEvents(ls, k, cn));
    }

    /** An eviction from the trust store (expiry or size bound inside
        `./db`): the entry goes, then 'evict' is emitted on `db`. */
    method EvictTrust(k: string)
      requires Valid() && k in db.vals
      modifies this`db, this`discoveryDB, this`dnsDB, this`trace
      ensures Valid()
      ensures db == old(db).Remove(k)
      ensures discoveryDB == old(discoveryDB).Remove(k)
      ensures dnsDB == if OwnersForget in trustListeners then old(dnsDB).Remove(k) else old(dnsDB)
      ensures trace == old(trace) + [Evicted(Trust, k)]
                       + TrustEvents(trustListeners, k, ownerListeners, directoryListeners,
                                     buildCN(k, zone))
    {
      RemoveKeepsInclusion(discoveryDB, db, k);
      db := db.Remove(k);
      trace := trace + [Evicted(Trust, k)];
      EmitTrust(k);
    }

    /** `db.emit('evict', {key})`: every `db` listener runs in registration
        order, each removing k from its own store (whether or not it held k)
        and re-emitting on that store. */
    method EmitTrust(k: string)
      requires dnsDB.Valid() && discoveryDB.Valid()
      modifies this`discoveryDB, this`dnsDB, this`trace
      ensures discoveryDB == if DirectoryForgets in trustListeners then old(discoveryDB).Remove(k) else old(discoveryDB)
      ensures dnsDB == if OwnersForget in trustListeners then old(dnsDB).Remove(k) else old(dnsDB)
      ensures trace == old(trace)
                       + TrustEvents(trustListeners, k, ownerListeners, directoryListeners, buildCN(k, zone))
    {
      var cn := buildCN(k, zone);
      ghost var dir0, dns0 := discoveryDB, dnsDB;
      var ls := trustListeners;
      var i := 0;
      while i < |ls|
        invariant 0 <= i <= |ls|
        invariant discoveryDB == if DirectoryForgets in ls[..i] then dir0.Remove(k) else dir0
        invariant dnsDB == if OwnersForget in ls[..i] then dns0.Remove(k) else dns0
        invariant trace == old(trace) + TrustEvents(ls[..i], k, ownerListeners, directoryListeners, cn)
      {
        TrustEventsStep(ls, i, k, ownerListeners, directoryListeners, cn);
        CascadeStep(ls, i, DirectoryForgets, dir0, k, discoveryDB);
        CascadeStep(ls, i, OwnersForget, dns0, k, dnsDB);
        ghost var done := TrustEvents(ls[..i], k, ownerListeners, directoryListeners, cn);
        ghost var step := TrustListenerEvents(ls[i], k, ownerListeners, directoryListeners, cn);
        RunTrustListener(ls[i], k);
        AppendAssoc(old(trace), done, step);
        i := i + 1;
      }
      assert ls[..|ls|] == ls;
    }

    /** One `db` listener at work. */
    method RunTrustListener(l: TrustListener, k: string)
      requires dnsDB.Valid() && discoveryDB.Valid()
      modifies this`discoveryDB, this`dnsDB, this`trace
      ensures dnsDB == if l == OwnersForget then old(dnsDB).Remove(k) else old(dnsDB)
      ensures discoveryDB == if l == DirectoryForgets then old(discoveryDB).Remove(k) else old(discoveryDB)
      ensures trace == old(trace)
                       + TrustListenerEvents(l, k, ownerListeners, directoryListeners, buildCN(k, zone))
    {
      match l
      case OwnersForget =>
        dnsDB := dnsDB.Remove(k);
        EmitKey(Owners, k);
      case DirectoryForgets =>
        discoveryDB := discoveryDB.Remove(k);
        EmitKey(Directory, k);
    }

    /** An eviction from `dnsDB` on its own (its own expiry): the entry goes
        and the DNS clean-up listener runs. */
    method ExpireOwner(k: string)
      requires Valid() && k in dnsDB.vals
      modifies this`dnsDB, this`trace
      ensures Valid()
      ensures dnsDB == old(dnsDB).Remove(k)
      ensures trace == old(trace) + ([Evicted(Owners, k)] + KeyEvents(ownerListeners, k, buildCN(k, zone)))
    {
      dnsDB := dnsDB.Remove(k);
      assert Valid();
      EmitKey(Owners, k);
    }

    /** An eviction from `discoveryDB` on its own (its own expiry). */
    method ExpireDirectory(k: string)
      requires Valid() && k in discoveryDB.vals
      modifies this`discoveryDB, this`trace
      ensures Valid()
      ensures discoveryDB == old(discoveryDB).Remove(k)
      ensures trace == old(trace) + ([Evicted(Directory, k)] + KeyEvents(directoryListeners, k, buildCN(k, zone)))
    {
      RemoveKeepsInclusion(discoveryDB, db, k);
      discoveryDB := discoveryDB.Remove(k);
      assert Valid();
      EmitKey(Directory, k);
    }
  }
}
