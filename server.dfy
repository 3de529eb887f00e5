/** The server's wiring (server/src/index.js): configuration checks and
    defaults, the shared store parameter, the handler registry behind
    `swarm.handle`/`swarm.exec`, and the two RPC handlers `nodetrust` and
    `nodetrustUpdate` that chain the certificate authority, the DNS update
    and the directory announce. */
module Server {
  import opened Common
  import opened Wire
  import opened Store
  import opened Swarm
  import opened Discovery
  import opened Dns
  import opened DnsReconciler

  // ---------------------------------------------------------------------
  // Configuration

  const DefaultListen := List([Str("/ip4/0.0.0.0/tcp/15566")])
  const DefaultListenWs := List([Str("/ip4/0.0.0.0/tcp/15577/ws")])

  /** The keys whose value must be truthy, checked in this order. */
  const RequiredKeys := ["id", "zone", "ca", "dns", "discovery"]

  /** The size bound of every store. */
  const MaxEntries := 1000000

  /** The entry lifetime when the configuration names none: five minutes. */
  const DefaultExpire := 5 * 60 * 1000

  /** `config[k]`; a missing key reads as `undefined`. */
  function Lookup(fields: map<string, Value>, k: string): (v: Value)
    ensures k in fields ==> v == fields[k]
    ensures k !in fields ==> v == Undefined && !Truthy(v)
  {
    if k in fields then fields[k] else Undefined
  }

  /** The configuration after the two defaulting assignments: `listen` and
      `listen_ws` get their default addresses when falsy, and keep the
      given value otherwise; no other key changes. */
  function WithDefaults(fields: map<string, Value>): (r: map<string, Value>)
    ensures Truthy(Lookup(fields, "listen")) ==> Lookup(r, "listen") == Lookup(fields, "listen")
    ensures !Truthy(Lookup(fields, "listen")) ==> Lookup(r, "listen") == DefaultListen
    ensures Truthy(Lookup(fields, "listen_ws")) ==> Lookup(r, "listen_ws") == Lookup(fields, "listen_ws")
    ensures !Truthy(Lookup(fields, "listen_ws")) ==> Lookup(r, "listen_ws") == DefaultListenWs
    ensures forall k :: k != "listen" && k != "listen_ws" ==> Lookup(r, k) == Lookup(fields, k)
    ensures Truthy(Lookup(r, "listen")) && Truthy(Lookup(r, "listen_ws"))
  {
    var a := if Truthy(Lookup(fields, "listen")) then fields else fields["listen" := DefaultListen];
    if Truthy(Lookup(a, "listen_ws")) then a else a["listen_ws" := DefaultListenWs]
  }

  /** Defaulting a second time changes nothing. */
  lemma WithDefaultsIdempotent(fields: map<string, Value>)
    ensures WithDefaults(WithDefaults(fields)) == WithDefaults(fields)
  {
    var r := WithDefaults(fields);
    assert Truthy(Lookup(r, "listen")) && Truthy(Lookup(r, "listen_ws"));
  }

  /** The caller's configuration object, which the server completes in place. */
  class ConfigObject {
    var fields: map<string, Value>

    constructor (fields: map<string, Value>)
      ensures this.fields == fields
    {
      this.fields := fields;
    }

    /** `if (!config.listen) config.listen = …` and the same for `listen_ws`. */
    method FillDefaults()
      modifies this
      ensures fields == WithDefaults(old(fields))
    {
      if !Truthy(Lookup(fields, "listen")) {
        fields := fields["listen" := DefaultListen];
      }
      if !Truthy(Lookup(fields, "listen_ws")) {
        fields := fields["listen_ws" := DefaultListenWs];
      }
    }
  }

  /** The `forEach` over the required keys, which throws at the first falsy
      one: it passes exactly when every required key is truthy, and
      otherwise names the first key that is not. */
  method CheckKeys(fields: map<string, Value>) returns (o: Outcome)
    ensures o.Pass? <==> forall i :: 0 <= i < |RequiredKeys| ==> Truthy(Lookup(fields, RequiredKeys[i]))
    ensures o.Fail? ==>
              exists i :: 0 <= i < |RequiredKeys|
                && o.error == ConfigKeyMissing(RequiredKeys[i])
                && !Truthy(Lookup(fields, RequiredKeys[i]))
                && forall j :: 0 <= j < i ==> Truthy(Lookup(fields, RequiredKeys[j]))
  {
    var i := 0;
    while i < |RequiredKeys|
      invariant 0 <= i <= |RequiredKeys|
      invariant forall j :: 0 <= j < i ==> Truthy(Lookup(fields, RequiredKeys[j]))
    {
      if !Truthy(Lookup(fields, RequiredKeys[i])) {
        return Fail(ConfigKeyMissing(RequiredKeys[i]));
      }
      i := i + 1;
    }
    return Pass;
  }

  /** `swarm.dbParam`: the size bound and `config.expire || 300000`. */
  function DbParamOf(fields: map<string, Value>): (p: DbParam)
    ensures p.max == MaxEntries
    ensures Truthy(Lookup(fields, "expire")) ==> p.maxAge == Lookup(fields, "expire")
    ensures !Truthy(Lookup(fields, "expire")) ==> p.maxAge == Num(DefaultExpire)
  {
    DbParam(MaxEntries, Or(Lookup(fields, "expire"), Num(DefaultExpire)))
  }

  // ---------------------------------------------------------------------
  // Requests, the certificate authority and the registry

  /** The `data` of an RPC call, by what the handlers use: the identity
      derived from `data.privkey`, and the answer of the client connection's
      `getObservedAddrs`. */
  datatype Request = Request(id: string, observed: Result<seq<Multiaddr>>)

  /** The position of the first occurrence of a in s. */
  function FirstIndex<T(==)>(s: seq<T>, a: T): (i: nat)
    requires a in s
    ensures i < |s| && s[i] == a && a !in s[..i]
    decreases |s|
  {
    if s[0] == a then 0
    else
      var i := 1 + FirstIndex(s[1..], a);
      assert s[..i] == [s[0]] + s[1..][..i - 1];
      i
  }

  /** Any position that holds a and has no earlier a is the first one. */
  lemma FirstIndexUnique<T>(s: seq<T>, a: T, i: nat)
    requires i < |s| && s[i] == a && a !in s[..i]
    ensures FirstIndex(s, a) == i
  {
  }

  /** Appending to a sequence leaves the first occurrence of an element it
      already holds where it was. */
  lemma FirstIndexAppend<T>(s: seq<T>, last: T, a: T)
    requires a in s
    ensures FirstIndex(s + [last], a) == FirstIndex(s, a)
  {
    var i := FirstIndex(s, a);
    assert (s + [last])[..i] == s[..i];
    FirstIndexUnique(s + [last], a, i);
  }

  /** `addr.forEach(a => peer.multiaddrs.add(a))`: the peer's address set
      keeps the first of equal addresses, in order of first arrival. */
  function Dedup(addrs: seq<Multiaddr>): (r: seq<Multiaddr>)
    ensures |r| <= |addrs|
    ensures forall a :: a in r <==> a in addrs
    ensures Distinct(r)
    ensures forall i, j :: 0 <= i < j < |r| ==> FirstIndex(addrs, r[i]) < FirstIndex(addrs, r[j])
    decreases |addrs|
  {
    if addrs == [] then []
    else
      var init := addrs[..|addrs| - 1];
      var last := addrs[|addrs| - 1];
      assert addrs == init + [last];
      var d := Dedup(init);
      forall a | a in d ensures FirstIndex(addrs, a) == FirstIndex(init, a) {
        FirstIndexAppend(init, last, a);
      }
      if last in d then d
      else
        assert FirstIndex(addrs, last) == |init| by {
          assert addrs[..|init|] == init;
          FirstIndexUnique(addrs, last, |init|);
        }
        assert Distinct(d + [last]) by {
          var e := d + [last];
          forall i, j | 0 <= i < j < |e| ensures e[i] != e[j] {
            if j == |d| { assert e[i] == d[i]; }
          }
        }
        d + [last]
  }

  /** `transform`: an observed-address error is passed on as it is;
      otherwise the connection the handlers see reports the peer with its
      observed addresses, and answers `getObservedAddrs` as the client's
      connection does. */
  function Transform(req: Request): (c: Result<Conn>)
    ensures req.observed.Failure? ==> c == Failure(req.observed.error)
    ensures req.observed.Success? ==>
              && c.Success?
              && c.value.peerInfo.Success? && c.value.peerInfo.value.id == req.id
              && (forall a :: a in c.value.peerInfo.value.multiaddrs <==> a in req.observed.value)
              && c.value.observed == req.observed
  {
    match req.observed
    case Failure(e) => Failure(e)
    case Success(addrs) => Success(Conn(Success(PeerInfo(req.id, Dedup(addrs))), req.observed))
  }

  /** The certificate authority's part (`./ca`, not part of this model):
      whether it stores a truthy marker for the peer, and its answer. */
  datatype CaStep = CaStep(admits: bool, answer: Response)

  /** The answers of everything outside the model for one call. */
  datatype Env = Env(ca: CaStep, provider: ProviderReplies)

  /** The trust store after the certificate authority has run. */
  function AfterCa(db: Db<bool>, conn: Conn, ca: CaStep): (d: Db<bool>)
    requires db.Valid()
    ensures d.Valid() && d.param == db.param
    ensures db.vals.Keys <= d.vals.Keys
  {
    if ca.admits && conn.peerInfo.Success? then db.Set(conn.peerInfo.value.id, true) else db
  }

  /** What a registered handler calls back with. */
  datatype Reply =
    | CaReply(res: Response)
    | DnsReply(answer: DnsAnswer)
    | AnnounceReply(outcome: Outcome)

  /** The three handlers are registered under their names. */
  predicate Wired(proto: map<string, Handler>) {
    && "ca" in proto && proto["ca"] == CaHandler
    && "dns" in proto && proto["dns"] == DnsHandler
    && "announce" in proto && proto["announce"] == AnnounceHandler
  }

  /** `swarm.proto[p]`: the handler last registered under p, if any. */
  function Registered(proto: map<string, Handler>, p: string): (h: Option<Handler>)
    ensures h.Some? <==> p in proto
    ensures h.Some? ==> h.value == proto[p]
  {
    if p in proto then Some(proto[p]) else None
  }

  /** `swarm.exec(p, conn, data, cb)`: runs the handler `Registered` finds
      under p; a name nobody registered fails. */
  method Exec(s: Swarm, p: string, conn: Conn, env: Env) returns (r: Result<Reply>)
    requires s.Valid()
    modifies s`db, s`discoveryDB, s`trace
    ensures s.Valid()
    ensures Registered(s.proto, p) == None ==>
              && r == Failure(NoHandler(p))
              && s.db == old(s.db) && s.discoveryDB == old(s.discoveryDB) && s.trace == old(s.trace)
    ensures Registered(s.proto, p) == Some(CaHandler) ==>
              && r == Success(CaReply(env.ca.answer))
              && s.db == AfterCa(old(s.db), conn, env.ca)
              && s.discoveryDB == old(s.discoveryDB) && s.trace == old(s.trace)
    ensures Registered(s.proto, p) == Some(DnsHandler) ==>
              var v := old(s.Snapshot());
              var run := Waterfall(v, conn, env.provider);
              && r == Success(DnsReply(if v.ready then Finished(run.result) else Retry))
              && s.trace == old(s.trace) + (if v.ready then run.calls else [])
              && s.db == old(s.db) && s.discoveryDB == old(s.discoveryDB)
    ensures Registered(s.proto, p) == Some(AnnounceHandler) ==>
              var a := Announced(old(s.db), old(s.discoveryDB), conn);
              && r == Success(AnnounceReply(a.outcome))
              && s.discoveryDB == a.dir
              && s.db == old(s.db) && s.trace == old(s.trace)
  {
    if p !in s.proto {
      return Failure(NoHandler(p));
    }
    match s.proto[p]
    case CaHandler =>
      if env.ca.admits && conn.peerInfo.Success? {
        s.Admit(conn.peerInfo.value.id);
      }
      return Success(CaReply(env.ca.answer));
    case DnsHandler =>
      var a := HandleDns(s, conn, env.provider);
      return Success(DnsReply(a));
    case AnnounceHandler =>
      var o := Announce(s, conn);
      return Success(AnnounceReply(o));
  }

  /** From a state to the one `s.Handle(p, h)` leaves: `exec(p, …)` now
      dispatches to h, whatever was registered under p before, and every
      other name dispatches as it did. */
  twostate lemma LatestRegistrationWins(s: Swarm, p: string, h: Handler)
    requires s.proto == old(s.proto)[p := h]
    ensures Registered(s.proto, p) == Some(h)
    ensures forall q :: q != p ==> Registered(s.proto, q) == Registered(old(s.proto), q)
  {
  }

  // ---------------------------------------------------------------------
  // The RPC handlers

  /** What remains to be done once the DNS step answers: finish a
      `nodetrust` call with the CA's answer, or finish a `nodetrustUpdate`. */
  datatype DnsCont = AfterCaAnswer(res: Response) | ForUpdate

  /** A call whose DNS step is waiting for the start-up sweep. */
  datatype Pending = Pending(conn: Conn, next: DnsCont)

  /** An RPC either calls back now, or is still waiting for the DNS module. */
  datatype RpcOutcome = Answered(reply: Result<Response>) | Waiting(pending: Pending)

  /** The callback value once the DNS step has succeeded with CN `dns` and
      the announce has answered. */
  function Compose(next: DnsCont, dns: string, announce: Outcome): (r: Response)
    ensures announce.Fail? ==> r == Refused
    ensures announce.Pass? && next.AfterCaAnswer? ==> r == next.res.(dns := Some(dns))
    ensures announce.Pass? && next.ForUpdate? ==> r == Accepted
  {
    if announce.Fail? then Refused
    else match next
      case AfterCaAnswer(res) => res.(dns := Some(dns))
      case ForUpdate => Accepted
  }

  /** What a call does to the state: its outcome, the trust store and the
      directory afterwards, and the calls it made. */
  datatype Effect = Effect(out: RpcOutcome, db: Db<bool>, dir: Db<seq<Bytes>>, calls: seq<Event>)

  /** The DNS step and, when it succeeds, the announce step, on a state v. */
  function DnsThenAnnounce(v: View, p: Pending, rep: ProviderReplies): (e: Effect)
    requires v.Valid()
    ensures e.db == v.db && e.dir.Valid()
    ensures !v.ready ==> e == Effect(Waiting(p), v.db, v.directory, [])
    ensures v.ready ==> e.calls == Waterfall(v, p.conn, rep).calls
    ensures v.ready && Waterfall(v, p.conn, rep).result.Failure? ==>
              e.out == Answered(Success(Refused)) && e.dir == v.directory
    ensures v.ready && Waterfall(v, p.conn, rep).result.Success? ==>
              var a := Announced(v.db, v.directory, p.conn);
              && e.out == Answered(Success(Compose(p.next, Waterfall(v, p.conn, rep).result.value, a.outcome)))
              && e.dir == a.dir
  {
    if !v.ready then Effect(Waiting(p), v.db, v.directory, [])
    else
      var run := Waterfall(v, p.conn, rep);
      if run.result.Failure? then Effect(Answered(Success(Refused)), v.db, v.directory, run.calls)
      else
        var a := Announced(v.db, v.directory, p.conn);
        Effect(Answered(Success(Compose(p.next, run.result.value, a.outcome))), v.db, a.dir, run.calls)
  }

  /** `handlers.nodetrust` on a state v. */
  function NodetrustEffect(v: View, req: Request, env: Env): (e: Effect)
    requires v.Valid()
    ensures e.db.Valid() && e.dir.Valid()
  {
    match Transform(req)
    case Failure(err) => Effect(Answered(Failure(err)), v.db, v.directory, [])
    case Success(conn) =>
      var db := AfterCa(v.db, conn, env.ca);
      if !env.ca.answer.success then Effect(Answered(Success(env.ca.answer)), db, v.directory, [])
      else DnsThenAnnounce(v.(db := db), Pending(conn, AfterCaAnswer(env.ca.answer)), env.provider)
  }

  /** `handlers.nodetrustUpdate` on a state v. */
  function NodetrustUpdateEffect(v: View, req: Request, env: Env): (e: Effect)
    requires v.Valid()
    ensures e.db.Valid() && e.dir.Valid()
  {
    match Transform(req)
    case Failure(err) => Effect(Answered(Failure(err)), v.db, v.directory, [])
    case Success(conn) => DnsThenAnnounce(v, Pending(conn, ForUpdate), env.provider)
  }

  /** An observed-address error of `transform` reaches the caller as an
      error, not as `{success: false}`, and nothing runs. */
  lemma TransformErrorPassesThrough(v: View, req: Request, env: Env)
    requires v.Valid() && req.observed.Failure?
    ensures NodetrustEffect(v, req, env) == Effect(Answered(Failure(req.observed.error)), v.db, v.directory, [])
    ensures NodetrustUpdateEffect(v, req, env) == Effect(Answered(Failure(req.observed.error)), v.db, v.directory, [])
  {
  }

  /** A CA answer without success is the reply, unchanged, and neither the
      DNS step nor the announce runs. */
  lemma CaRefusalIsFinal(v: View, req: Request, env: Env)
    requires v.Valid() && req.observed.Success? && !env.ca.answer.success
    ensures var e := NodetrustEffect(v, req, env);
            e.out == Answered(Success(env.ca.answer)) && e.calls == [] && e.dir == v.directory
  {
  }

  /** Every `nodetrust` reply has one of three forms: `{success: false}`,
      the CA's refusal unchanged, or the CA's successful answer with `dns`
      set to the peer's CN. Which one is due is stated by CaRefusalIsFinal,
      NodetrustRefused and NodetrustSucceeds. */
  lemma NodetrustReplies(v: View, req: Request, env: Env)
    requires v.Valid()
    ensures var e := NodetrustEffect(v, req, env);
            e.out.Answered? && e.out.reply.Success? ==>
              var r := e.out.reply.value;
              || r == Refused
              || (r == env.ca.answer && !r.success)
              || (&& env.ca.answer.success
                  && v.buildCN(req.id, v.zone).Success?
                  && r == env.ca.answer.(dns := Some(v.buildCN(req.id, v.zone).value)))
  {
    var e := NodetrustEffect(v, req, env);
    if req.observed.Success? && env.ca.answer.success && v.ready {
      var conn := Transform(req).value;
      var w := v.(db := AfterCa(v.db, conn, env.ca));
      var run := Waterfall(w, conn, env.provider);
      if run.result.Success? {
        assert run.result == w.GetCN(req.id);
      }
    }
  }

  /** Once the CA has answered with success and the sweep has finished,
      `nodetrust` replies `{success: false}` exactly when the DNS step
      failed or the announce was refused. */
  lemma NodetrustRefused(v: View, req: Request, env: Env)
    requires v.Valid() && v.ready && req.observed.Success? && env.ca.answer.success
    ensures var conn := Transform(req).value;
            var w := v.(db := AfterCa(v.db, conn, env.ca));
            NodetrustEffect(v, req, env).out == Answered(Success(Refused))
            <==> (|| Waterfall(w, conn, env.provider).result.Failure?
                  || Announced(w.db, w.directory, conn).outcome.Fail?)
  {
  }

  /** The directory changes only when the DNS step has succeeded: announce
      runs after DNS and never instead of it. */
  lemma AnnounceOnlyAfterDns(v: View, req: Request, env: Env)
    requires v.Valid()
    ensures var e := NodetrustEffect(v, req, env);
            e.dir != v.directory ==>
              && req.observed.Success? && env.ca.answer.success && v.ready
              && Waterfall(v.(db := AfterCa(v.db, Transform(req).value, env.ca)),
                           Transform(req).value, env.provider).result.Success?
    ensures var e := NodetrustUpdateEffect(v, req, env);
            e.dir != v.directory ==>
              && req.observed.Success? && v.ready
              && Waterfall(v, Transform(req).value, env.provider).result.Success?
  {
  }

  /** When every step succeeds, `nodetrust` replies with the CA's answer
      and the peer's CN, has cleared and re-added the peer's records, and
      has put the peer's addresses into the directory. */
  lemma NodetrustSucceeds(v: View, req: Request, env: Env)
    requires v.Valid() && v.ready && req.observed.Success? && env.ca.answer.success
    requires env.ca.admits || Trusted(v.db, req.id)
    requires v.buildCN(req.id, v.zone).Success?
    requires env.provider.clear.Pass? && env.provider.add.Pass?
    ensures var e := NodetrustEffect(v, req, env);
            var cn := v.buildCN(req.id, v.zone).value;
            && e.out == Answered(Success(env.ca.answer.(dns := Some(cn))))
            && e.calls == AllCalls(req.id, cn, req.observed.value)
            && req.id in e.dir.vals
            && e.dir.vals[req.id] == Buffers(Dedup(req.observed.value))
  {
    var conn := Transform(req).value;
    var db := AfterCa(v.db, conn, env.ca);
    assert Trusted(db, req.id);
  }

  /** A `nodetrust` call that reaches the DNS step before the sweep has
      finished waits, having changed nothing but the trust store. */
  lemma NodetrustWaitsForSweep(v: View, req: Request, env: Env)
    requires v.Valid() && !v.ready && req.observed.Success? && env.ca.answer.success
    ensures var e := NodetrustEffect(v, req, env);
            && e.out == Waiting(Pending(Transform(req).value, AfterCaAnswer(env.ca.answer)))
            && e.calls == [] && e.dir == v.directory
  {
  }

  /** `nodetrustUpdate` replies `{success: true}` exactly when the DNS step
      succeeded and the announce was accepted, and `{success: false}` on any
      other answer of those two. */
  lemma UpdateReplies(v: View, req: Request, env: Env)
    requires v.Valid()
    ensures var e := NodetrustUpdateEffect(v, req, env);
            e.out.Answered? && e.out.reply.Success? ==>
              && (e.out.reply.value == Refused || e.out.reply.value == Accepted)
              && (e.out.reply.value == Accepted <==>
                    && Waterfall(v, Transform(req).value, env.provider).result.Success?
                    && Announced(v.db, v.directory, Transform(req).value).outcome.Pass?)
  {
  }

  /** The DNS step through the registry and, if it succeeds, the announce. */
  method ContinueDns(s: Swarm, p: Pending, env: Env) returns (out: RpcOutcome)
    requires s.Valid() && Wired(s.proto)
    modifies s`db, s`discoveryDB, s`trace
    ensures s.Valid()
    ensures var e := DnsThenAnnounce(old(s.Snapshot()), p, env.provider);
            out == e.out && s.db == e.db && s.discoveryDB == e.dir && s.trace == old(s.trace) + e.calls
  {
    var r := Exec(s, "dns", p.conn, env);
    match r.value.answer
    case Retry =>
      return Waiting(p);
    case Finished(res) =>
      if res.Failure? {
        return Answered(Success(Refused));
      }
      var a := Exec(s, "announce", p.conn, env);
      return Answered(Success(Compose(p.next, res.value, a.value.outcome)));
  }

  /** `handlers.nodetrust`: transform, then CA, then DNS, then announce. */
  method Nodetrust(s: Swarm, req: Request, env: Env) returns (out: RpcOutcome)
    requires s.Valid() && Wired(s.proto)
    modifies s`db, s`discoveryDB, s`trace
    ensures s.Valid()
    ensures var e := NodetrustEffect(old(s.Snapshot()), req, env);
            out == e.out && s.db == e.db && s.discoveryDB == e.dir && s.trace == old(s.trace) + e.calls
  {
    var c := Transform(req);
    if c.Failure? {
      return Answered(Failure(c.error));
    }
    var conn := c.value;
    var r := Exec(s, "ca", conn, env);
    var res := r.value.res;
    if !res.success {
      return Answered(Success(res));
    }
    out := ContinueDns(s, Pending(conn, AfterCaAnswer(res)), env);
  }

  /** `handlers.nodetrustUpdate`: transform, then DNS, then announce. */
  method NodetrustUpdate(s: Swarm, req: Request, env: Env) returns (out: RpcOutcome)
    requires s.Valid() && Wired(s.proto)
    modifies s`db, s`discoveryDB, s`trace
    ensures s.Valid()
    ensures var e := NodetrustUpdateEffect(old(s.Snapshot()), req, env);
            out == e.out && s.db == e.db && s.discoveryDB == e.dir && s.trace == old(s.trace) + e.calls
  {
    var c := Transform(req);
    if c.Failure? {
      return Answered(Failure(c.error));
    }
    out := ContinueDns(s, Pending(c.value, ForUpdate), env);
  }

  // ---------------------------------------------------------------------
  // Construction

  /** `new NodetrustServer(config)` up to the protocol registration: the
      configuration is required, completed with defaults and checked; the
      three stores share one parameter; the CA module (not part of this
      model) registers 'ca', then the DNS module and the discovery module
      register their listeners and handlers, in that order. The zone must
      be text for the DNS module's name pattern. */
  method Create(config: Option<ConfigObject>, buildCN: (string, string) -> Result<string>,
                provider: Outcome) returns (r: Result<Swarm>)
    modifies if config.Some? then {config.value} else {}
    ensures config.None? ==> r == Failure(ConfigRequired)
    ensures config.Some? ==> config.value.fields == WithDefaults(old(config.value.fields))
    ensures config.Some? ==>
              var f := config.value.fields;
              (r.Success? <==>
                 && (forall i :: 0 <= i < |RequiredKeys| ==> Truthy(Lookup(f, RequiredKeys[i])))
                 && Lookup(f, "zone").Str? && provider.Pass?)
    ensures config.Some? ==>
              var f := config.value.fields;
              forall i :: && 0 <= i < |RequiredKeys| && !Truthy(Lookup(f, RequiredKeys[i]))
                          && (forall j :: 0 <= j < i ==> Truthy(Lookup(f, RequiredKeys[j]))) ==>
                r == Failure(ConfigKeyMissing(RequiredKeys[i]))
    ensures config.Some? ==>
              var f := config.value.fields;
              (forall i :: 0 <= i < |RequiredKeys| ==> Truthy(Lookup(f, RequiredKeys[i]))) ==>
                && (!Lookup(f, "zone").Str? ==> r == Failure(ZoneNotText))
                && (Lookup(f, "zone").Str? && provider.Fail? ==> r == Failure(provider.error))
    ensures r.Success? ==>
              var s, f := r.value, config.value.fields;
              && fresh(s) && s.Valid() && Wired(s.proto)
              && s.zone == Lookup(f, "zone").s && s.buildCN == buildCN
              && s.dbParam == DbParamOf(f)
              && s.db == Empty(DbParamOf(f)) && s.discoveryDB == Empty(DbParamOf(f))
              && s.dnsDB == Empty(DbParamOf(f))
              && s.trustListeners == StandardTrustListeners
              && s.ownerListeners == StandardOwnerListeners && s.directoryListeners == []
              && !s.ready && s.trace == [GetNames]
  {
    if config.None? {
      return Failure(ConfigRequired);
    }
    var cfg := config.value;
    cfg.FillDefaults();
    var checked := CheckKeys(cfg.fields);
    if checked.Fail? {
      return Failure(checked.error);
    }
    var zone := Lookup(cfg.fields, "zone");
    if !zone.Str? {
      return Failure(ZoneNotText);
    }
    r := Assemble(zone.s, buildCN, DbParamOf(cfg.fields), provider);
  }

  /** The swarm and the three modules' registrations, in `require` order. */
  method Assemble(zone: string, buildCN: (string, string) -> Result<string>, param: DbParam,
                  provider: Outcome) returns (r: Result<Swarm>)
    ensures r.Success? <==> provider.Pass?
    ensures r.Failure? ==> r.error == provider.error
    ensures r.Success? ==>
              var s := r.value;
              && fresh(s) && s.Valid() && Wired(s.proto)
              && s.zone == zone && s.buildCN == buildCN && s.dbParam == param
              && s.db == Empty(param) && s.discoveryDB == Empty(param) && s.dnsDB == Empty(param)
              && s.trustListeners == StandardTrustListeners
              && s.ownerListeners == StandardOwnerListeners && s.directoryListeners == []
              && !s.ready && s.trace == [GetNames]
  {
    var s := new Swarm(zone, buildCN, param);
    s.Handle("ca", CaHandler);
    var loaded := DnsReconciler.Register(s, provider);
    if loaded.Fail? {
      return Failure(loaded.error);
    }
    Discovery.Register(s);
    return Success(s);
  }
}
