/** The DNS reconciler of the server (server/src/dns/index.js): the mapping
    of observed addresses to DNS records, the name filter of the start-up
    sweep, the two 'evict' clean-ups, and the `handleDNS` pipeline. The
    provider is reached through three fallible calls (`getNames`,
    `clearDomain`, `addNames`) whose answers are inputs and whose calls are
    recorded in the swarm's trace. */
module Dns {
  import opened Common
  import opened Wire
  import opened Store
  import opened Swarm

  // ---------------------------------------------------------------------
  // Text helpers

  /** Some character of s is a separator. */
  predicate HasSep(s: string, seps: set<char>) {
    exists i :: 0 <= i < |s| && s[i] in seps
  }

  /** The first position of a separator in s. */
  function IndexOf(s: string, seps: set<char>): (i: nat)
    requires HasSep(s, seps)
    ensures i < |s| && s[i] in seps
    ensures forall j :: 0 <= j < i ==> s[j] !in seps
    decreases |s|
  {
    if s[0] in seps then 0
    else
      assert HasSep(s[1..], seps) by {
        var k :| 0 <= k < |s| && s[k] in seps;
        assert s[1..][k - 1] == s[k];
      }
      1 + IndexOf(s[1..], seps)
  }

  /** `s.split(sep)` for one-character separators: the pieces between
      separators, empty ones included. */
  function Split(s: string, seps: set<char>): (parts: seq<string>)
    ensures |parts| >= 1
    ensures forall p, i :: p in parts && 0 <= i < |p| ==> p[i] !in seps
    decreases |s|
  {
    if !HasSep(s, seps) then [s]
    else
      var i := IndexOf(s, seps);
      [s[..i]] + Split(s[i + 1..], seps)
  }

  /** The inverse of Split: the pieces glued back with one separator. */
  function Join(parts: seq<string>, sep: char): string
    requires |parts| >= 1
    decreases |parts|
  {
    if |parts| == 1 then parts[0] else parts[0] + [sep] + Join(parts[1..], sep)
  }

  /** Splitting on a single separator and gluing back gives the text again. */
  lemma {:induction false} SplitJoin(s: string, sep: char)
    ensures Join(Split(s, {sep}), sep) == s
    decreases |s|
  {
    if HasSep(s, {sep}) {
      var i := IndexOf(s, {sep});
      var parts := Split(s, {sep});
      SplitAt(s, {sep});
      assert parts[0] == s[..i] && parts[1..] == Split(s[i + 1..], {sep});
      SplitJoin(s[i + 1..], sep);
      assert Join(parts, sep) == parts[0] + [sep] + Join(parts[1..], sep);
      assert s == s[..i] + [sep] + s[i + 1..];
    }
  }

  /** Split with a separator present: the text before it, then the rest. */
  lemma SplitAt(s: string, seps: set<char>)
    requires HasSep(s, seps)
    ensures var i := IndexOf(s, seps);
            Split(s, seps) == [s[..i]] + Split(s[i + 1..], seps)
  {
  }

  /** A text is the part before its dot at k, the dot, and the rest. */
  lemma CutAt(s: string, k: int)
    requires 0 <= k < |s| && s[k] == '.'
    ensures s == s[..k] + "." + s[k + 1..]
  {
    assert s == s[..k] + [s[k]] + s[k + 1..];
  }

  /** A piece free of separators, followed by a separator, comes off first. */
  lemma SplitPrefix(a: string, b: string, seps: set<char>, c: char)
    requires c in seps && forall j :: 0 <= j < |a| ==> a[j] !in seps
    ensures Split(a + [c] + b, seps) == [a] + Split(b, seps)
  {
    var s := a + [c] + b;
    assert s[|a|] == c;
    var i := IndexOf(s, seps);
    assert forall j :: 0 <= j < |a| ==> s[j] == a[j];
    assert i == |a|;
    assert s[..i] == a && s[i + 1..] == b;
  }

  /** The first piece is a beginning of the text. */
  lemma SplitHeadPrefix(s: string, seps: set<char>)
    ensures Split(s, seps)[0] <= s
  {
    if HasSep(s, seps) {
      SplitAt(s, seps);
    }
  }

  /** A text free of separators is one piece. */
  lemma SplitNone(a: string, seps: set<char>)
    requires forall j :: 0 <= j < |a| ==> a[j] !in seps
    ensures Split(a, seps) == [a]
  {
  }

  /** The first piece of a text is what comes before its first separator. */
  lemma SplitFirst(a: string, t: string, seps: set<char>)
    requires forall j :: 0 <= j < |a| ==> a[j] !in seps
    requires t == [] || t[0] in seps
    ensures Split(a + t, seps)[0] == a
  {
    if t == [] {
      assert a + t == a;
      SplitNone(a, seps);
    } else {
      assert a + t == a + [t[0]] + t[1..];
      SplitPrefix(a, t[1..], seps, t[0]);
    }
  }

  predicate StartsWith(s: string, prefix: string) {
    |prefix| <= |s| && s[..|prefix|] == prefix
  }

  // ---------------------------------------------------------------------
  // Observed addresses to records

  /** The `toDNS` table; any other protocol name has no entry. */
  function ToDns(proto: string): (t: Option<RecordType>)
    ensures t == Some(A) <==> proto == "ip4"
    ensures t == Some(AAAA) <==> proto == "ip6"
  {
    if proto == "ip4" then Some(A)
    else if proto == "ip6" then Some(AAAA)
    else None
  }

  /** `{name, type: toDNS[s[1]], value: s[2]}` with `s = addr.split('/')`. */
  function RecordOf(name: string, addr: string): (r: DnsRecord)
    ensures r.name == name
    ensures r.value.Some? ==> forall j :: 0 <= j < |r.value.value| ==> r.value.value[j] != '/'
  {
    var s := Split(addr, {'/'});
    DnsRecord(name,
              if |s| > 1 then ToDns(s[1]) else None,
              if |s| > 2 then Some(s[2]) else None)
  }

  /** The records for the observed addresses: every address whose text
      starts with `/ip` gives one record, in order; the others give none. */
  function ToRecords(name: string, addrs: seq<Multiaddr>): (r: seq<DnsRecord>)
    ensures |r| <= |addrs|
    ensures forall x :: x in r ==> x.name == name
    decreases |addrs|
  {
    if addrs == [] then []
    else
      var rest := ToRecords(name, addrs[1..]);
      if StartsWith(addrs[0].text, "/ip") then [RecordOf(name, addrs[0].text)] + rest
      else rest
  }

  /** The addresses ToRecords keeps. */
  function IpAddrs(addrs: seq<Multiaddr>): (r: seq<string>)
    ensures |r| <= |addrs|
    ensures forall a :: a in r ==> StartsWith(a, "/ip") && exists m :: m in addrs && m.text == a
    ensures forall m :: m in addrs && StartsWith(m.text, "/ip") ==> m.text in r
    decreases |addrs|
  {
    if addrs == [] then []
    else if StartsWith(addrs[0].text, "/ip") then [addrs[0].text] + IpAddrs(addrs[1..])
    else IpAddrs(addrs[1..])
  }

  /** The records are exactly one RecordOf per kept address, in order. */
  lemma {:induction false} ToRecordsPointwise(name: string, addrs: seq<Multiaddr>)
    ensures |ToRecords(name, addrs)| == |IpAddrs(addrs)|
    ensures forall i :: 0 <= i < |IpAddrs(addrs)| ==>
              ToRecords(name, addrs)[i] == RecordOf(name, IpAddrs(addrs)[i])
    ensures forall a :: a in IpAddrs(addrs) ==> StartsWith(a, "/ip")
    decreases |addrs|
  {
    if addrs != [] {
      ToRecordsPointwise(name, addrs[1..]);
    }
  }

  /** Records of a concatenation are the concatenated records. */
  lemma {:induction false} ToRecordsAppend(name: string, a: seq<Multiaddr>, b: seq<Multiaddr>)
    ensures ToRecords(name, a + b) == ToRecords(name, a) + ToRecords(name, b)
    decreases |a|
  {
    if a == [] {
      assert a + b == b;
    } else {
      assert (a + b)[1..] == a[1..] + b;
      ToRecordsAppend(name, a[1..], b);
    }
  }

  /** An address that does not start with `/ip` gives no record. */
  lemma DropsNonIp(name: string, m: Multiaddr)
    requires !StartsWith(m.text, "/ip")
    ensures ToRecords(name, [m]) == []
  {
  }

  /** An address `/<p>/<v><tail>`, with no slash inside p or v and a tail
      that is empty or starts a new component, gives the record of type
      `toDNS[p]` and value v. */
  lemma RecordShape(name: string, p: string, v: string, tail: string)
    requires forall j :: 0 <= j < |p| ==> p[j] != '/'
    requires forall j :: 0 <= j < |v| ==> v[j] != '/'
    requires tail == [] || tail[0] == '/'
    ensures RecordOf(name, ['/'] + (p + (['/'] + (v + tail))))
         == DnsRecord(name, ToDns(p), Some(v))
  {
    var rest := v + tail;
    var mid := p + (['/'] + rest);
    assert ['/'] + mid == [] + ['/'] + mid;
    SplitPrefix([], mid, {'/'}, '/');
    assert mid == p + ['/'] + rest;
    SplitPrefix(p, rest, {'/'}, '/');
    SplitFirst(v, tail, {'/'});
  }

  /** `/ip4/<v>…` gives an A record and `/ip6/<v>…` an AAAA record for v, and
      both pass the `/ip` filter. */
  lemma IpRecord(name: string, v: string, tail: string)
    requires forall j :: 0 <= j < |v| ==> v[j] != '/'
    requires tail == [] || tail[0] == '/'
    ensures var a4, a6 := ['/'] + ("ip4" + (['/'] + (v + tail))), ['/'] + ("ip6" + (['/'] + (v + tail)));
            && StartsWith(a4, "/ip") && RecordOf(name, a4) == DnsRecord(name, Some(A), Some(v))
            && StartsWith(a6, "/ip") && RecordOf(name, a6) == DnsRecord(name, Some(AAAA), Some(v))
  {
    RecordShape(name, "ip4", v, tail);
    RecordShape(name, "ip6", v, tail);
  }

  /** A `/ipfs/<v>` address passes the `/ip` filter and gets no record type. */
  lemma IpfsRecord(name: string, v: string)
    requires forall j :: 0 <= j < |v| ==> v[j] != '/'
    ensures var a := ['/'] + ("ipfs" + (['/'] + (v + [])));
            StartsWith(a, "/ip") && RecordOf(name, a) == DnsRecord(name, None, Some(v))
  {
    RecordShape(name, "ipfs", v, []);
  }

  // ---------------------------------------------------------------------
  // The name filter of the start-up sweep

  /** The characters JavaScript treats as line terminators, where the `m`
      flag lets `^` and `$` match. */
  const LineTerminators: set<char> := {'\n', '\r', '\U{2028}', '\U{2029}'}

  /** `[a-z0-9]` under the `i` flag. */
  predicate LabelChar(c: char) {
    ('a' <= c <= 'z') || ('A' <= c <= 'Z') || ('0' <= c <= '9')
  }

  /** The case folding of the `i` flag, on ASCII letters. */
  function Fold(c: char): char {
    if 'A' <= c <= 'Z' then (c as int + 32) as char else c
  }

  predicate FoldEq(a: string, b: string) {
    |a| == |b| && forall i :: 0 <= i < |a| ==> Fold(a[i]) == Fold(b[i])
  }

  /** A zone the pattern reads literally: only its dots are escaped, so it
      must hold no other pattern character and no line terminator. */
  predicate ZoneOk(zone: string) {
    forall i :: 0 <= i < |zone| ==>
      zone[i] !in LineTerminators && zone[i] !in "\\^$*+?()[]{}|/"
  }

  /** One line against `ci[a-z0-9]+\.<zone>`, case-insensitively: the zone is
      the last |zone| characters, a dot before it, and before that `ci` and
      at least one label character. */
  predicate LineMatches(line: string, zone: string) {
    var k := |line| - |zone| - 1;
    && k >= 3
    && FoldEq(line[..2], "ci")
    && (forall i :: 2 <= i < k ==> LabelChar(line[i]))
    && line[k] == '.'
    && FoldEq(line[k + 1..], zone)
  }

  /** `name.match(nameRegEx)` with the flags `mi`: some line of the name
      matches the pattern as a whole. */
  predicate NameMatches(name: string, zone: string) {
    var lines := Split(name, LineTerminators);
    exists i :: 0 <= i < |lines| && LineMatches(lines[i], zone)
  }

  /** `name.split('.').shift()`. */
  function Label(name: string): (l: string)
    ensures l <= name
    ensures forall i :: 0 <= i < |l| ==> l[i] != '.'
  {
    SplitHeadPrefix(name, {'.'});
    Split(name, {'.'})[0]
  }

  /** A label of the pattern's form, `ci` and label characters, holds no dot. */
  lemma LabelHasNoDot(head: string)
    requires |head| >= 2 && FoldEq(head[..2], "ci")
    requires forall i :: 2 <= i < |head| ==> LabelChar(head[i])
    ensures forall j :: 0 <= j < |head| ==> head[j] !in {'.'}
  {
    forall j | 0 <= j < |head| ensures head[j] != '.' {
      if j >= 2 {
        assert LabelChar(head[j]);
      } else {
        assert Fold(head[..2][j]) == Fold("ci"[j]);
      }
    }
  }

  /** A label of the form the certificate authority hands out, `ci` and
      label characters, is found again in its canonical name. */
  lemma CanonicalNameMatches(head: string, zone: string)
    requires ZoneOk(zone)
    requires |head| >= 3 && FoldEq(head[..2], "ci")
    requires forall i :: 2 <= i < |head| ==> LabelChar(head[i])
    ensures NameMatches(head + "." + zone, zone)
    ensures Label(head + "." + zone) == head
  {
    var name := head + "." + zone;
    CanonicalLine(head, zone);
    SingleLineMatches(name, zone);
    LabelHasNoDot(head);
    assert name == head + (['.'] + zone);
    SplitFirst(head, ['.'] + zone, {'.'});
  }

  /** The canonical name is one line, and that line matches. */
  lemma CanonicalLine(head: string, zone: string)
    requires ZoneOk(zone)
    requires |head| >= 3 && FoldEq(head[..2], "ci")
    requires forall i :: 2 <= i < |head| ==> LabelChar(head[i])
    ensures var name := head + "." + zone;
            && (forall j :: 0 <= j < |name| ==> name[j] !in LineTerminators)
            && LineMatches(name, zone)
  {
    var name := head + "." + zone;
    forall j | 0 <= j < |name| ensures name[j] !in LineTerminators {
      if j < |head| {
        assert name[j] == head[j];
        if j >= 2 { assert LabelChar(head[j]); }
        else { assert Fold(head[..2][j]) == Fold("ci"[j]); }
      } else if j > |head| {
        assert name[j] == zone[j - |head| - 1];
      }
    }
    assert name[..2] == head[..2];
    assert name[|head| + 1..] == zone;
    forall i | 2 <= i < |head| ensures LabelChar(name[i]) {
      assert name[i] == head[i];
    }
  }

  /** A name without line terminators that matches as one line matches. */
  lemma SingleLineMatches(name: string, zone: string)
    requires forall j :: 0 <= j < |name| ==> name[j] !in LineTerminators
    requires LineMatches(name, zone)
    ensures NameMatches(name, zone)
  {
    SplitNone(name, LineTerminators);
    assert Split(name, LineTerminators)[0] == name;
  }

  /** The label of a line that matches is the text before the dot that
      precedes the zone. */
  lemma LineLabel(line: string, zone: string)
    requires LineMatches(line, zone)
    ensures var k := |line| - |zone| - 1;
            && k >= 3 && line[k] == '.' && FoldEq(line[k + 1..], zone)
            && Label(line) == line[..k]
  {
    var k := |line| - |zone| - 1;
    var head := line[..k];
    assert head[..2] == line[..2];
    assert forall i :: 2 <= i < |head| ==> head[i] == line[i];
    LabelHasNoDot(head);
    assert line == head + line[k..];
    SplitFirst(head, line[k..], {'.'});
  }

  /** Conversely, a one-line name that matches is a label and the zone
      joined by a dot, and the sweep reads exactly that label off it. */
  lemma MatchedNameLabel(name: string, zone: string)
    requires forall j :: 0 <= j < |name| ==> name[j] !in LineTerminators
    requires NameMatches(name, zone)
    ensures var k := |name| - |zone| - 1;
            && k >= 3
            && Label(name) == name[..k]
            && name == name[..k] + "." + name[k + 1..]
            && FoldEq(name[k + 1..], zone)
  {
    OneLineMatch(name, zone);
    LineLabel(name, zone);
    CutAt(name, |name| - |zone| - 1);
  }

  /** A name without line terminators is its only line. */
  lemma OneLineMatch(name: string, zone: string)
    requires forall j :: 0 <= j < |name| ==> name[j] !in LineTerminators
    requires NameMatches(name, zone)
    ensures LineMatches(name, zone)
  {
    SplitNone(name, LineTerminators);
    var lines := Split(name, LineTerminators);
    var i :| 0 <= i < |lines| && LineMatches(lines[i], zone);
    assert lines[i] == name;
  }

  /** Because of the `m` flag a name matches when any of its lines does, and
      the label is still read off the text before the first dot: a name whose
      first line holds a dot and whose second line matches seeds the label of
      its first line. */
  lemma MultilineLabel(first: string, line: string, zone: string)
    requires forall j :: 0 <= j < |first| ==> first[j] !in LineTerminators
    requires forall j :: 0 <= j < |line| ==> line[j] !in LineTerminators
    requires HasSep(first, {'.'}) && LineMatches(line, zone)
    ensures NameMatches(first + ['\n'] + line, zone)
    ensures Label(first + ['\n'] + line) == Label(first)
  {
    var name := first + ['\n'] + line;
    assert '\n' in LineTerminators;
    SplitPrefix(first, line, LineTerminators, '\n');
    SplitNone(line, LineTerminators);
    assert Split(name, LineTerminators)[1] == line;
    LabelBeforeDot(first, ['\n'] + line);
    assert name == first + (['\n'] + line);
  }

  /** Text after a dot does not change the label. */
  lemma LabelBeforeDot(first: string, rest: string)
    requires HasSep(first, {'.'})
    ensures Label(first + rest) == Label(first)
  {
    var k := IndexOf(first, {'.'});
    var a, b := first[..k], first[k + 1..];
    assert first == a + ['.'] + b;
    assert first + rest == a + ['.'] + (b + rest);
    SplitPrefix(a, b, {'.'}, '.');
    SplitPrefix(a, b + rest, {'.'}, '.');
  }

  /** The labels the sweep seeds, in the provider's order:
      `names.filter(match).map(Label)`. */
  function SweepLabels(names: seq<string>, zone: string): (r: seq<string>)
    ensures forall l :: l in r ==> exists n :: n in names && NameMatches(n, zone) && Label(n) == l
    ensures forall n :: n in names && NameMatches(n, zone) ==> Label(n) in r
    decreases |names|
  {
    if names == [] then []
    else
      var rest := SweepLabels(names[1..], zone);
      assert forall n :: n in names[1..] ==> n in names;
      assert forall n :: n in names ==> n == names[0] || n in names[1..];
      if NameMatches(names[0], zone) then [Label(names[0])] + rest else rest
  }

  /** `labels.forEach(id => dnsDB.set(id, true))`, as a value. */
  function SeedAll(d: Db<bool>, labels: seq<string>): (r: Db<bool>)
    requires d.Valid()
    ensures r.Valid() && r.param == d.param
    ensures forall l :: l in r.vals <==> l in d.vals || l in labels
    ensures forall l :: l in labels ==> r.vals[l]
    ensures forall l :: l in d.vals && l !in labels ==> r.vals[l] == d.vals[l]
    decreases |labels|
  {
    if labels == [] then d
    else
      assert forall l :: l in labels ==> l == labels[0] || l in labels[1..];
      SeedAll(d.Set(labels[0], true), labels[1..])
  }
}

module DnsReconciler {
  import opened Common
  import opened Wire
  import opened Store
  import opened Swarm
  import opened Dns

  /** The provider's answers to the two calls the pipeline makes. */
  datatype ProviderReplies = ProviderReplies(clear: Outcome, add: Outcome)

  /** What one run of the pipeline gives its callback, and the calls it made
      on the way (CN lookups and provider calls), in order. */
  datatype DnsRun = DnsRun(result: Result<string>, calls: seq<Event>)

  /** `handleDNS` answers later when the sweep has not finished, and
      otherwise with the pipeline's result. */
  datatype DnsAnswer = Retry | Finished(result: Result<string>)

  /** The calls a run makes when nothing fails. */
  function AllCalls(id: string, name: string, addrs: seq<Multiaddr>): seq<Event> {
    [CnQuery(id), ClearDomain(name), AddNames(ToRecords(name, addrs))]
  }

  /** The `waterfall` of `handleDNS`: peer info, trust gate, CN, observed
      addresses to records, `clearDomain`, then `addNames`. Nothing is
      called before the trust gate passes; the calls made are always a
      prefix of the full sequence, so `clearDomain` comes before `addNames`;
      the run succeeds exactly when every step does, with the peer's CN and
      all three calls made. */
  function Waterfall(v: View, conn: Conn, rep: ProviderReplies): (run: DnsRun)
    requires v.Valid()
    ensures run.calls != [] <==> conn.peerInfo.Success? && Trusted(v.db, conn.peerInfo.value.id)
    ensures run.calls != [] ==> run.calls[0] == CnQuery(conn.peerInfo.value.id)
    ensures && conn.peerInfo.Success? && Trusted(v.db, conn.peerInfo.value.id)
            && v.GetCN(conn.peerInfo.value.id).Success? && conn.observed.Success? ==>
              |run.calls| >= 2
    ensures |run.calls| > 1 ==>
              && v.GetCN(conn.peerInfo.value.id).Success? && conn.observed.Success?
              && |run.calls| <= 3
              && run.calls == AllCalls(conn.peerInfo.value.id, v.GetCN(conn.peerInfo.value.id).value,
                                       conn.observed.value)[..|run.calls|]
    ensures |run.calls| == 3 <==> |run.calls| > 1 && rep.clear.Pass?
    ensures run.result.Success? <==> |run.calls| == 3 && rep.add.Pass?
    ensures run.result.Success? ==> run.result == v.GetCN(conn.peerInfo.value.id)
    ensures && conn.peerInfo.Success? && Trusted(v.db, conn.peerInfo.value.id)
            && v.GetCN(conn.peerInfo.value.id).Success? && conn.observed.Success?
            && rep.clear.Pass? && rep.add.Pass? ==>
              var id := conn.peerInfo.value.id;
              run == DnsRun(v.GetCN(id), AllCalls(id, v.GetCN(id).value, conn.observed.value))
  {
    match conn.peerInfo
    case Failure(e) => DnsRun(Failure(e), [])
    case Success(pi) =>
      if !Trusted(v.db, pi.id) then DnsRun(Failure(NotTrusted(pi.id)), [])
      else
        match v.GetCN(pi.id)
        case Failure(e) => DnsRun(Failure(e), [CnQuery(pi.id)])
        case Success(name) =>
          match conn.observed
          case Failure(e) => DnsRun(Failure(e), [CnQuery(pi.id)])
          case Success(addrs) =>
            var calls := AllCalls(pi.id, name, addrs);
            match rep.clear
            case Fail(e) => DnsRun(Failure(e), calls[..2])
            case Pass =>
              match rep.add
              case Fail(e) => DnsRun(Failure(e), calls)
              case Pass => DnsRun(Success(name), calls)
  }

  /** Each failing step hands its own error to the callback: a peer-info or
      CN or observed-address error as reported, an untrusted peer as
      NotTrusted, and a provider refusal as the provider's error. */
  lemma WaterfallErrors(v: View, conn: Conn, rep: ProviderReplies)
    requires v.Valid()
    ensures conn.peerInfo.Failure? ==> Waterfall(v, conn, rep).result == Failure(conn.peerInfo.error)
    ensures conn.peerInfo.Success? && !Trusted(v.db, conn.peerInfo.value.id) ==>
              Waterfall(v, conn, rep) == DnsRun(Failure(NotTrusted(conn.peerInfo.value.id)), [])
    ensures conn.peerInfo.Success? && Trusted(v.db, conn.peerInfo.value.id) ==>
              var id := conn.peerInfo.value.id;
              var run := Waterfall(v, conn, rep);
              && (v.GetCN(id).Failure? ==> run.result == Failure(v.GetCN(id).error))
              && (v.GetCN(id).Success? && conn.observed.Failure? ==>
                    run.result == Failure(conn.observed.error))
              && (v.GetCN(id).Success? && conn.observed.Success? && rep.clear.Fail? ==>
                    run.result == Failure(rep.clear.error))
              && (v.GetCN(id).Success? && conn.observed.Success? && rep.clear.Pass? && rep.add.Fail? ==>
                    run.result == Failure(rep.add.error))
  {
  }

  /** The module's start-up (server/src/dns/index.js:16-48 up to the
      provider call): the `db` clean-up listener is registered first; then
      the provider is loaded, and a load failure aborts with its error;
      then the `dnsDB` clean-up listener, the `getNames` call of the sweep
      and the 'dns' handler. The sweep's answer arrives later
      (NamesArrived); until then `ready` stays false. */
  method Register(s: Swarm, provider: Outcome) returns (o: Outcome)
    modifies s`trustListeners, s`ownerListeners, s`trace, s`proto
    ensures s.trustListeners == old(s.trustListeners) + [OwnersForget]
    ensures o == provider
    ensures provider.Fail? ==>
              s.ownerListeners == old(s.ownerListeners) && s.trace == old(s.trace)
              && s.proto == old(s.proto)
    ensures provider.Pass? ==>
              && s.ownerListeners == old(s.ownerListeners) + [ClearDomainOf]
              && s.trace == old(s.trace) + [GetNames]
              && s.proto == old(s.proto)["dns" := DnsHandler]
  {
    s.OnTrustEvict(OwnersForget);
    if provider.Fail? {
      return provider;
    }
    s.OnOwnerEvict(ClearDomainOf);
    s.trace := s.trace + [GetNames];
    s.Handle("dns", DnsHandler);
    return Pass;
  }

  /** The answer to the sweep's `getNames`: an error is thrown and nothing
      changes; otherwise every matching name's label is set to true in
      `dnsDB`, in order, and `ready` becomes true. */
  method NamesArrived(s: Swarm, names: Result<seq<string>>) returns (o: Outcome)
    requires s.Valid()
    modifies s`dnsDB, s`ready
    ensures s.Valid()
    ensures names.Failure? ==>
              o == Fail(names.error) && s.dnsDB == old(s.dnsDB) && s.ready == old(s.ready)
    ensures names.Success? ==>
              && o == Pass && s.ready
              && s.dnsDB == SeedAll(old(s.dnsDB), SweepLabels(names.value, s.zone))
  {
    if names.Failure? {
      return Fail(names.error);
    }
    var labels := SweepLabels(names.value, s.zone);
    ghost var d0 := s.dnsDB;
    var i := 0;
    while i < |labels|
      invariant 0 <= i <= |labels|
      invariant s.dnsDB.Valid()
      invariant SeedAll(s.dnsDB, labels[i..]) == SeedAll(d0, labels)
    {
      assert labels[i..][1..] == labels[i + 1..];
      s.dnsDB := s.dnsDB.Set(labels[i], true);
      i := i + 1;
    }
    s.ready := true;
    return Pass;
  }

  /** `handleDNS`: before the sweep has finished it asks to be called again
      and calls nothing; afterwards it runs the pipeline on the current
      state, recording each call as it is made. */
  method HandleDns(s: Swarm, conn: Conn, rep: ProviderReplies) returns (a: DnsAnswer)
    requires s.Valid()
    modifies s`trace
    ensures !s.ready ==> a == Retry && s.trace == old(s.trace)
    ensures s.ready ==>
              var run := Waterfall(s.Snapshot(), conn, rep);
              a == Finished(run.result) && s.trace == old(s.trace) + run.calls
  {
    if !s.ready {
      return Retry;
    }
    if conn.peerInfo.Failure? {
      return Finished(Failure(conn.peerInfo.error));
    }
    var id := conn.peerInfo.value.id;
    if !Trusted(s.db, id) {
      return Finished(Failure(NotTrusted(id)));
    }
    var cn := s.buildCN(id, s.zone);
    s.trace := s.trace + [CnQuery(id)];
    if cn.Failure? {
      return Finished(Failure(cn.error));
    }
    var name := cn.value;
    if conn.observed.Failure? {
      return Finished(Failure(conn.observed.error));
    }
    var ips := ToRecords(name, conn.observed.value);
    s.trace := s.trace + [ClearDomain(name)];
    if rep.clear.Fail? {
      return Finished(Failure(rep.clear.error));
    }
    s.trace := s.trace + [AddNames(ips)];
    if rep.add.Fail? {
      return Finished(Failure(rep.add.error));
    }
    return Finished(Success(name));
  }
}
