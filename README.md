# nodetrust: the trust server's stores and pipelines, and the discovery client

This project models the in-memory core of the nodetrust rendezvous server and its discovery client.

**The three stores.** A certificate authority admits peers into the trust store `db`. Two stores depend on it:

- the discovery directory `discoveryDB`, which maps a peer to its announced address bytes;
- the DNS owner set `dnsDB`, which marks the peers that own DNS records.

An eviction from `db` removes the peer from both dependent stores and re-emits the eviction on each. An eviction from `dnsDB` makes the DNS module look up the peer's canonical name (CN) and ask the DNS provider to clear that domain.

**The protocols that read and change the stores:**

- **announce** is gated by the trust store;
- the **discovery sampler** answers a request with a window of directory keys, without the requester;
- the **DNS reconciler**:
  - seeds `dnsDB` from the provider's existing names at start-up and then raises a `ready` flag;
  - on a `dns` request, runs a short-circuiting pipeline: peer info, trust gate, CN, observed addresses turned into A/AAAA records, `clearDomain`, then `addNames`.
- the **server wiring**:
  - checks the configuration and fills in its defaults;
  - gives all three stores one parameter;
  - keeps a registry of handlers behind `handle`/`exec`;
  - composes certificate authority, DNS and announce into the `nodetrust` and `nodetrustUpdate` replies.
- the **client** `NodeTrustDiscovery`:
  - keeps a `started` flag and a polling timer;
  - validates the rendezvous node's answers;
  - emits one `peer` event per returned address, and nothing while stopped.

**How the model is built.**

- The state that the source changes in place is a class `Swarm.Swarm`. It holds:
  - the three stores;
  - the listener lists in registration order;
  - the handler registry;
  - the `ready` flag;
  - a trace of every observable effect: evict emissions, CN lookups, and provider calls `getNames`, `clearDomain` and `addNames`.
- The client is a class `Client.NodeTrustDiscovery`.
- Pure parts are functions, and lemmas state the promised properties about them:
  - the JavaScript `slice`, `split` and regular-expression semantics the code relies on;
  - the record mapping;
  - the window arithmetic;
  - the sweep's label filter;
  - the pipeline and the RPC compositions.
- Each state-changing method is tied by its `ensures` to one of those functions, or states the new state outright.

**What becomes a parameter.** Everything the core calls but does not define is an input of the call that uses it:

- provider answers;
- the certificate authority's answer and admission;
- the dial and transport answers;
- the drawn random offset;
- the `buildCN` naming function.

**Decisions where the code is followed.**

- **The sampler window.** It is modelled exactly as written. The start offset is decremented until `start + n <= length`, then `slice(start, start + n)` is taken. `slice` counts a negative start from the end.
  - When `n` exceeds the directory size `L`, the window is therefore the tail `keys[max(0, 2L - n)..]`, of `min(L, n - L)` keys.
  - There is no clamp to `min(n, L)`.
- **The owner set.** `handleDNS` never writes `dnsDB`. Owner entries come only from the start-up sweep, and leave with trust-store evictions.
  - So "every owner entry has a trust entry" does not hold: the sweep seeds labels that have no trust entry.
  - The proved store invariant is the directory's: every `discoveryDB` key is a `db` key whose marker is truthy, so every directory entry belongs to a trusted peer. See `Swarm.Swarm.Valid`, kept by every state-changing method.
- **The name pattern.** It carries the flags `m` and `i`.
  - `m`: a provider name matches when any of its lines matches, while the label is still cut at the name's first dot (`Dns.MultilineLabel`).
  - `i`: case folding is ASCII.
- **The `/ip` filter.** It also admits `/ipfs/...` addresses. These give a record whose type is `undefined` (`Dns.IpfsRecord`).

The store module `./db` is not part of this model. It is modelled as an ordered key/value store:

- a new key joins the end, and an overwrite keeps its place;
- `get` and `peek` read the same thing;
- removing an absent key changes nothing.

## Model

| member | source | states |
|---|---|---|
| Common.Without | server/src/discovery/index.js:46 | `filter(i => i !== id)` keeps exactly the other elements, never grows, shrinks when the id was present, and keeps a repetition-free list repetition-free |
| Common.Truthy | server/src/index.js:26 | JavaScript truthiness behind `!config[key]`: `undefined`, `null`, `false`, `0` and `""` are falsy, everything else truthy |
| Common.Or | server/src/index.js:50 | JavaScript's logical or as used for defaults (`config.expire` or five minutes): a truthy left operand is the result, otherwise the right one |
| Store.Db.Length | server/src/discovery/index.js:41-42 | `length` is the number of entries |
| Store.Db.Get | server/src/discovery/index.js:21 | `get(k)` is present exactly for stored keys, with the stored value |
| Store.Db.Set | server/src/discovery/index.js:23 | `set(k, v)` gives k the value v and changes no other entry; a new key joins the end of the order, an existing one keeps its place |
| Store.Db.Remove | server/src/discovery/index.js:12 | `remove(k)` drops exactly k, keeps the order of the rest, and changes nothing when k is absent |
| Store.Empty | server/src/index.js:52-54 | a new store is empty and holds its parameter |
| Store.RemoveKeepsInclusion | server/src/discovery/index.js:11-14 | removing a key from a store and from one that covers it keeps the inclusion |
| Store.RemoveTwice | server/src/dns/index.js:21 | removing a key twice is removing it once, so the cascade's removal from a store that no longer holds the key is harmless |
| Swarm.TrustEventsStep | server/src/dns/index.js:20-23 | the effects of the first i+1 `db` listeners are those of the first i followed by the next one's |
| Swarm.CascadeStep | server/src/discovery/index.js:11-14 | after each `db` listener runs, a dependent store has lost k exactly when its listener has run |
| Swarm.Trusted | server/src/discovery/index.js:21 | the trust gate `db.get(id)`: the peer has a truthy marker in the trust store |
| Swarm.View.GetCN | server/src/index.js:44-47 | `swarm.getCN(id)`: the CN `buildCN` gives for the id under the swarm's zone |
| Swarm.KeyEvents | server/src/dns/index.js:33-39 | the effects of emitting 'evict' on a dependent store: each listener's in registration order; the clean-up listener makes one CN lookup and, with a CN, one `clearDomain` |
| Swarm.KeyListenerEvents | server/src/dns/index.js:33-39 | one dnsDB eviction listener: a CN lookup for the key, then a `clearDomain` of the CN when one was found |
| Swarm.TrustEvents | server/src/dns/index.js:20-23 | the effects of emitting 'evict' on `db`: each `db` listener in registration order re-emits on its own store, followed by that store's listeners' effects |
| Swarm.TrustListenerEvents | server/src/discovery/index.js:11-14 | one `db` eviction listener: remove the key from its dependent store (dnsDB or the discovery directory) and re-emit there, followed by that store's listeners' effects |
| Swarm.StandardCascade | server/src/index.js:65-66 | with the DNS listener registered before the discovery one, a trust eviction first empties the owner entry, makes one CN lookup and at most one `clearDomain` for the peer, and ends by re-emitting on the directory |
| Swarm.Swarm.constructor | server/src/index.js:48-56 | the swarm starts with three empty stores sharing one parameter, no listeners, no handlers and `ready` false |
| Swarm.Swarm.Handle | server/src/index.js:58-60 | `handle(p, h)` makes h the handler under p |
| Swarm.Swarm.OnTrustEvict | server/src/dns/index.js:20 | a `db` listener joins the end of the listener list |
| Swarm.Swarm.OnOwnerEvict | server/src/dns/index.js:33 | a `dnsDB` listener joins the end of the listener list |
| Swarm.Swarm.Admit | server/src/index.js:86 | the trust admission the certificate authority makes during `exec('ca', …)`: `db.set(id, marker)` with a truthy marker, keeping the directory invariant |
| Swarm.Swarm.EmitKey | server/src/dns/index.js:33-39 | an eviction on `dnsDB` runs its listeners in order; the clean-up listener makes one CN lookup and, when the CN is known, one `clearDomain`; errors are not surfaced |
| Swarm.Swarm.EvictTrust | server/src/discovery/index.js:11-14 | a trust eviction of k removes k from `db` and from `discoveryDB`, removes it from `dnsDB` when the DNS listener is registered, emits on each dependent store whether or not it held k, and keeps every directory key trusted |
| Swarm.Swarm.EmitTrust | server/src/dns/index.js:20-23 | `db.emit('evict')` runs every `db` listener in registration order, each removing k from its own store and re-emitting there |
| Swarm.Swarm.RunTrustListener | server/src/discovery/index.js:12-13 | one `db` listener removes k from its store and then emits 'evict' for k on that store |
| Swarm.Swarm.ExpireOwner | server/src/dns/index.js:33-39 | an expiry in `dnsDB` removes the entry and runs the clean-up listener |
| Swarm.Swarm.ExpireDirectory | server/src/discovery/index.js:12-13 | an expiry in `discoveryDB` removes the entry and emits on the directory |
| Discovery.SliceIndex | server/src/discovery/index.js:46 | a slice bound always lands inside the list |
| Discovery.JsSlice | server/src/discovery/index.js:46 | `slice` never yields more than the list holds |
| Discovery.JsSliceInBounds | server/src/discovery/index.js:46 | with bounds inside the list, `slice` is the plain subsequence |
| Discovery.JsSliceNegativeStart | server/src/discovery/index.js:46 | a negative start counts from the end |
| Discovery.WindowBounds | server/src/discovery/index.js:41-44 | the decrement loop ends with `from = min(r, L - n)` and `to = from + n <= L` |
| Discovery.StartOffsetOk | server/src/discovery/index.js:41 | the range of `Math.floor(Math.random() * length)`: an index into the directory, or 0 when it is empty |
| Discovery.Window | server/src/discovery/index.js:41-46 | the candidate keys for n peers at offset r: `slice(min(r, L - n), min(r, L - n) + n)`, never more keys than the directory has, all of them directory keys |
| Discovery.WindowFits | server/src/discovery/index.js:42-46 | when `0 <= n <= L`, the window is exactly the n keys from `from` |
| Discovery.WindowOverflows | server/src/discovery/index.js:41-46 | when `n > L`, the window is the tail from `max(0, 2L - n)` and holds `min(L, n - L)` keys |
| Discovery.WindowSize | server/src/discovery/index.js:43-46 | a window never holds more than n keys |
| Discovery.SampleBound | server/src/discovery/index.js:46 | the answer holds at most `min(n, L - 1)` peers when the requester is in the directory, and at most `min(n, L)` otherwise |
| Discovery.ThreePeerScenario | server/src/discovery/index.js:41-55 | directory X, Y, Z and requester Y asking for three: the answer is X, Z for every offset |
| Discovery.SliceMembers | server/src/discovery/index.js:46 | every key of a window is a directory key, so `peek` finds it |
| Discovery.EmptyDirectoryAnswer | server/src/discovery/index.js:41-55 | an empty directory answers with an empty peer list |
| Discovery.Buffers | server/src/discovery/index.js:23 | the announced value is the peer's address bytes, one per address, in order |
| Discovery.Entries | server/src/discovery/index.js:46-51 | each answer entry is the key with its stored addresses |
| Discovery.Discover | server/src/discovery/index.js:29-58 | a peer-info failure answers `{success:false}`; otherwise `{success:true}` with the window's keys minus the requester, in order, each with its stored value, the requester never among them, and at most `min(n, L - [requester present])` entries; the directory is only read |
| Discovery.Announced | server/src/discovery/index.js:16-27 | announce passes exactly for a peer the trust store vouches for; a peer-info error or an untrusted peer is an error and leaves the directory unchanged; a pass sets the peer's entry to its addresses and changes no other entry |
| Discovery.AnnounceIdempotent | server/src/discovery/index.js:23 | announcing the same addresses again leaves the directory as one announce does |
| Discovery.Announce | server/src/discovery/index.js:16-27 | the handler does to the swarm what Announced says and keeps every directory key trusted |
| Discovery.Register | server/src/discovery/index.js:11-16 | the module registers its `db` listener and then the 'announce' handler |
| Dns.IndexOf | server/src/dns/index.js:71 | the first separator of a text |
| Dns.Split | server/src/dns/index.js:71 | `split` gives at least one piece and no piece holds a separator |
| Dns.SplitJoin | server/src/dns/index.js:71 | gluing the pieces back with the separator gives the original text |
| Dns.SplitPrefix | server/src/dns/index.js:71 | a separator-free prefix comes off as the first piece |
| Dns.SplitNone | server/src/dns/index.js:45 | a text without separators is one piece |
| Dns.SplitFirst | server/src/dns/index.js:45 | the first piece is the text before the first separator |
| Dns.ToDns | server/src/dns/index.js:11-14 | `ip4` maps to A, `ip6` to AAAA, every other protocol to nothing |
| Dns.RecordOf | server/src/dns/index.js:71-76 | the record of one address: named with the CN, typed by `toDNS` of the first path segment, valued with the second, which holds no `/` |
| Dns.IpAddrs | server/src/dns/index.js:70 | the observed addresses the `/ip` filter keeps: each kept one starts with `/ip` and is one of the observed addresses, and every observed address starting with `/ip` is kept |
| Dns.StartsWith | server/src/dns/index.js:70 | `addr.startsWith('/ip')`: the prefix is the start of the text |
| Dns.ToRecords | server/src/dns/index.js:70-77 | at most one record per observed address, every record named with the CN |
| Dns.ToRecordsPointwise | server/src/dns/index.js:70-77 | the records are one per address starting with `/ip`, in input order, each built from `split('/')` |
| Dns.ToRecordsAppend | server/src/dns/index.js:70-77 | the mapping works address by address |
| Dns.DropsNonIp | server/src/dns/index.js:70 | an address not starting with `/ip` gives no record |
| Dns.RecordShape | server/src/dns/index.js:71-76 | `/<p>/<v>...` gives type `toDNS[p]` and value v |
| Dns.IpRecord | server/src/dns/index.js:70-77 | `/ip4/<v>...` gives an A record and `/ip6/<v>...` an AAAA record with value v |
| Dns.IpfsRecord | server/src/dns/index.js:70-77 | `/ipfs/<v>` passes the filter and gets an undefined type |
| Dns.NameMatches | server/src/dns/index.js:18 | `name.match(nameRegEx)` under the flags `m` and `i`: some line of the name is `ci`, one or more letters or digits, a dot and the zone, ASCII case ignored |
| Dns.LineMatches | server/src/dns/index.js:18 | the pattern on one line: `ci`, one or more letters or digits, a dot and the zone, ASCII case ignored |
| Dns.Label | server/src/dns/index.js:45 | `name.split('.').shift()`: a prefix of the name that holds no dot |
| Dns.CanonicalNameMatches | server/src/dns/index.js:18 | a name `ci<label chars>.<zone>` matches the pattern, and the sweep reads its label back |
| Dns.MatchedNameLabel | server/src/dns/index.js:18 | a one-line name that matches is its label, a dot and the zone, case-insensitively, and the label is the text before the first dot |
| Dns.MultilineLabel | server/src/dns/index.js:18 | under the `m` flag a later matching line makes the whole name match, and the label is cut from the first line |
| Dns.LabelBeforeDot | server/src/dns/index.js:45 | text after the first dot does not change the label |
| Dns.SweepLabels | server/src/dns/index.js:45 | every seeded label comes from a matching name, and every matching name's label is seeded |
| Dns.SeedAll | server/src/dns/index.js:45 | after the seeding, the owner set holds exactly the old keys and the labels, every label set to true, other entries unchanged |
| DnsReconciler.Waterfall | server/src/dns/index.js:53-90 | calls are made exactly when peer info succeeds and the trust gate passes, starting with the CN lookup, and at least two are made once the CN and the observed addresses are also there; the calls are a prefix of CN lookup, `clearDomain(CN)`, `addNames(records)`, so `clearDomain` always precedes `addNames`; the run succeeds exactly when every step does: any failing step gives a failure, and when peer info, trust gate, CN, observed addresses, `clearDomain` and `addNames` all pass the result is the CN and all three calls were made |
| DnsReconciler.WaterfallErrors | server/src/dns/index.js:53-90 | each failing step hands its own error to the callback |
| DnsReconciler.Register | server/src/dns/index.js:16-48 | the `db` listener is registered first; a provider load failure is thrown; otherwise the clean-up listener, the `getNames` call and the 'dns' handler follow |
| DnsReconciler.NamesArrived | server/src/dns/index.js:43-48 | a `getNames` error is thrown and changes nothing; otherwise every matching name's label is set in `dnsDB` and `ready` becomes true |
| DnsReconciler.HandleDns | server/src/dns/index.js:50-92 | before the sweep has finished it asks to be retried and calls nothing; afterwards it makes exactly the pipeline's calls and answers its result |
| Server.WithDefaults | server/src/index.js:22-23 | `listen` and `listen_ws` get their defaults only when falsy, keep given values, and no other key changes |
| Server.Lookup | server/src/index.js:22-27 | `config[k]`: the stored value, and `undefined` (falsy) for a missing key |
| Server.WithDefaultsIdempotent | server/src/index.js:22-23 | defaulting twice is defaulting once |
| Server.ConfigObject.FillDefaults | server/src/index.js:22-23 | the configuration object is completed in place |
| Server.CheckKeys | server/src/index.js:24-27 | the check passes exactly when `id`, `zone`, `ca`, `dns` and `discovery` are all truthy, and otherwise names the first falsy one |
| Server.DbParamOf | server/src/index.js:48-51 | the store parameter is a million entries and `config.expire`, or five minutes when that is falsy |
| Server.Dedup | server/src/index.js:73-74 | the peer's address set holds each observed address once, and exactly the observed ones, in order of first arrival |
| Server.Transform | server/src/index.js:69-80 | an observed-address error is passed on; otherwise the connection reports the peer's id and its observed addresses |
| Server.AfterCa | server/src/index.js:86 | the certificate authority step only adds to the trust store |
| Server.Exec | server/src/index.js:62 | `exec(p)` runs the handler registered under p, with that handler's effect on the stores and trace, and fails for an unregistered p |
| Server.Wired | server/src/index.js:64-66 | the modules have registered 'ca', 'dns' and 'announce' with their handlers |
| Server.Registered | server/src/index.js:62 | `swarm.proto[p]`: the handler `exec(p)` dispatches to is present exactly for registered names, and is the one stored under p |
| Server.LatestRegistrationWins | server/src/index.js:58-62 | between a swarm state and the one `Swarm.Swarm.Handle(p, h)` leaves, `exec(p)` now dispatches to h and every other name dispatches as before |
| Server.Compose | server/src/index.js:90-94 | a refused announce gives `{success:false}`; an accepted one gives the CA answer with `dns` set, or `{success:true}` for an update |
| Server.DnsThenAnnounce | server/src/index.js:88-95 | the DNS step, and the announce only after it: before the sweep the call waits, a DNS failure replies `{success:false}`, otherwise the reply is composed from the CN and the announce outcome; the trust store is left alone |
| Server.NodetrustEffect | server/src/index.js:82-98 | the `nodetrust` chain (transform, CA, then DNS and announce unless the CA refused) as a function of the state; the stores stay well formed, and its replies and effects are stated by the lemmas below |
| Server.NodetrustUpdateEffect | server/src/index.js:99-110 | the `nodetrustUpdate` chain (transform, then DNS and announce) as a function of the state; the stores stay well formed |
| Server.TransformErrorPassesThrough | server/src/index.js:84-85 | a transform error reaches the caller as an error, with nothing run |
| Server.CaRefusalIsFinal | server/src/index.js:86-87 | a CA answer without success is returned unchanged and neither DNS nor announce runs |
| Server.NodetrustReplies | server/src/index.js:86-94 | every `nodetrust` reply has one of three forms: `{success:false}`, the CA's refusal unchanged, or the CA's successful answer with `dns` set to the peer's CN |
| Server.NodetrustRefused | server/src/index.js:88-94 | after a successful CA answer and the sweep, the reply is `{success:false}` exactly when the DNS step failed or the announce was refused |
| Server.AnnounceOnlyAfterDns | server/src/index.js:88-91 | the directory changes only after the DNS step has succeeded |
| Server.NodetrustSucceeds | server/src/index.js:82-98 | when every step succeeds, the reply carries the CN, the provider was asked to clear and re-add the peer's records, and the directory holds the peer's addresses |
| Server.NodetrustWaitsForSweep | server/src/dns/index.js:51 | a `nodetrust` call that reaches DNS before the sweep has finished waits with no call made and the directory unchanged |
| Server.UpdateReplies | server/src/index.js:99-110 | `nodetrustUpdate` answers `{success:true}` exactly when DNS and announce both succeed, and `{success:false}` otherwise |
| Server.ContinueDns | server/src/index.js:88-95 | the DNS step through the registry and then the announce do what DnsThenAnnounce says |
| Server.Nodetrust | server/src/index.js:82-98 | the handler does what NodetrustEffect says |
| Server.NodetrustUpdate | server/src/index.js:99-110 | the handler does what NodetrustUpdateEffect says |
| Server.Create | server/src/index.js:18-66 | a missing configuration fails; the configuration is completed; construction succeeds exactly when every required key is truthy, the zone is text and the provider loads; a failure names the first falsy required key, then a non-text zone, then the provider's error |
| Server.Assemble | server/src/index.js:48-66 | the new swarm's stores share the parameter, its listeners are the DNS one then the discovery one, its three handlers are wired, and the sweep's `getNames` is issued |
| Client.OrNumber | src/index.js:19 | a truthy number is kept and a falsy or absent one replaced by the default |
| Client.AddrEvents | src/index.js:56 | one event per address, in order, each the decapsulated address |
| Client.PeerEvents | src/index.js:55-57 | the `peer` events for a list of peers: each peer's address events in turn |
| Client.PeerEventsAppend | src/index.js:55-57 | the events for two peer lists follow each other |
| Client.PeerEventsCount | src/index.js:55-57 | exactly one event per address of each peer, each from a returned address |
| Client.ClearTimer | src/index.js:32 | `clearInterval(h)` stops exactly the timer under h |
| Client.ClearAbsent | src/index.js:32 | clearing a handle no timer holds changes nothing |
| Client.ClearAppend | src/index.js:32 | clearing works timer by timer |
| Client.StartStop | src/index.js:24-34 | `start` then `stop` leaves the running timers as before |
| Client.StartStartStop | src/index.js:24-34 | after two `start`s and a `stop` the first timer keeps running, because only the latest handle is kept |
| Client.ClientOptions.constructor | src/index.js:14 | the caller's configuration object, with its `node`, `discoveryPeers` and `intervalMS` |
| Client.NodeTrustDiscovery.constructor | src/index.js:14-22 | `node` defaults to the default rendezvous node and `discoveryPeers` to 20 when falsy, both read once; the configuration object itself is kept by reference; the client starts stopped, with no timer, no callback made, nothing emitted and nothing sent |
| Client.NodeTrustDiscovery.Start | src/index.js:24-28 | `start` sets `started`, starts one timer with period `config.intervalMS || 1000` read from the kept configuration object at this call, remembers its handle in place of the old one, and calls back once |
| Client.NodeTrustDiscovery.Stop | src/index.js:30-34 | `stop` clears `started` and the remembered timer, and calls back once |
| Client.NodeTrustDiscovery.Handle | src/index.js:53-58 | nothing is emitted while stopped; otherwise one event per address of each peer, in order |
| Client.NodeTrustDiscovery.DoDiscovery | src/index.js:36-51 | a falsy `numPeers` becomes `discoveryPeers`; a dial error ends the call with no request sent; a transport error, an unsuccessful answer or one without peers is an error and nothing is emitted; otherwise the peers go to `_handle` and then to the callback |
| Client.NodeTrustDiscovery.Tick | src/index.js:26-57 | a running timer firing is `_doDiscovery()` with `discoveryPeers` peers: a dial error sends nothing; otherwise one request is sent, a failed or incomplete answer is the error with nothing emitted, and a complete answer is its peers with one event per address emitted only while started, so a timer left running after `stop()` emits nothing |

## Left out

- `./db` (expiry by `maxAge`, the size bound, recency) is not part of this model. Evictions arrive as the external events `EvictTrust`, `ExpireOwner` and `ExpireDirectory`, and `get`/`peek` read the same thing.
- `./protos` is not part of this model:
  - the codec and the protocol framing (`protos.server`, `protos.client`) are left out;
  - `buildCN` is an uninterpreted function of id and zone;
  - a decoded request is given by its identity and its observed addresses.
- `./ca` is not part of this model. Its answer, and whether it admitted the peer, are inputs (`Server.CaStep`), and it is assumed to register itself as 'ca'.
- DNS provider implementations are loaded dynamically. The load is an input outcome, and `getNames`, `clearDomain` and `addNames` answers are inputs. A provider's `clearDomain` answer after an eviction is only logged, so it is not modelled.
- Timers are replaced by explicit steps:
  - `setInterval` is a timer handle, and one firing is `Tick`;
  - the 500 ms `setTimeout` retry of `handleDNS` is the `Retry` answer and a `Pending` call resumed with `ContinueDns`;
  - `setImmediate` runs its work at once.
- `Math.random` is replaced by the start offset `r`, given as a parameter.
- Transport is left out:
  - swarm construction, TCP/WebSocket listening and `dial`, which is an input outcome;
  - the registration of the discovery protocol and of the RPC commands with their schemas (server/src/index.js:113-130, server/src/discovery/index.js:29);
  - the server's `start`/`stop`, which only delegate to the transport.
- Library behaviour is abstract:
  - a peer id is its base58 text;
  - an address is its text and its bytes;
  - `decapsulate('ipfs')` is the symbolic `Decapsulated`.
- Interleavings are not modelled: each handler runs to completion in one step. So a clean-up in flight racing a re-announce of the same peer is not captured.
- Debug logging, and the `peer` event consumers, are left out.
- Trace order: `Swarm.StandardCascade` and `Swarm.Swarm.EmitKey` put a `clearDomain` before the directory's re-emit. That order holds only if `buildCN` calls back synchronously; an asynchronous one would issue the `clearDomain` after the later listeners have run.
- `transform` and the pipeline both read `getObservedAddrs`. server/src/index.js:77 copies that method off the client connection onto the new `Connection`, so the pipeline's reading (server/src/dns/index.js:68) runs with `this` bound to the new object and could answer differently. The model assumes both readings give the same answer.
- Dns.NameMatches: matches the pattern only for zones without pattern characters other than dots. The `i` flag folds ASCII letters only.
- Server.Create: a zone that is not text fails before the swarm is built. In the code it fails inside the DNS module; no state of a failed construction is observable either way.
- Server.Create: a text zone that is not a valid pattern once its dots are escaped (such as `[` or `a(b`) makes `new RegExp` throw a SyntaxError (server/src/dns/index.js:18), so construction fails in the code. The model does not compile patterns: it builds the swarm for every text zone.
- Client.NodeTrustDiscovery.constructor: takes a configuration object. `new NodeTrustDiscovery()` with none throws a TypeError at `config.node` (src/index.js:18); that call is not modelled.
- Configuration numbers are integers: NaN and fractions are not modelled.
