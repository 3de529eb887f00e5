/** Failure-compatible wrappers, the error taxonomy of the trust server and a
    few sequence helpers shared by every other module. */
module Common {

  datatype Option<+T> = None | Some(value: T)

  /** What a failed step reports. Errors raised by code outside the model
      (transport, codec, `buildCN`, the DNS provider) arrive as inputs and
      are `Foreign`, with their message. */
  datatype Error =
    | ConfigRequired                 // `new NodetrustServer()` without a config
    | ConfigKeyMissing(key: string)  // a required config key is falsy
    | NotTrusted(id: string)         // the peer has no entry in the trust store
    | Foreign(detail: string)
    | IncompleteDiscovery            // the rendezvous answered without peers
    | NoHandler(proto: string)       // exec of a protocol nobody registered
    | ZoneNotText                    // the zone has no `replace`: the name pattern cannot be built

  datatype Result<+T> = Success(value: T) | Failure(error: Error)

  /** A callback that is called with an error or with nothing. */
  datatype Outcome = Pass | Fail(error: Error)

  /** A configuration value as JavaScript sees it. Numbers are integers
      here; NaN and fractions are not modelled. */
  datatype Value =
    | Undefined
    | Null
    | Bool(b: bool)
    | Num(n: int)
    | Str(s: string)
    | List(items: seq<Value>)
    | Obj(fields: map<string, Value>)

  /** JavaScript truthiness: `false`, `0`, `""`, `null` and `undefined` are
      falsy; every list and object is truthy, even an empty one. */
  predicate Truthy(v: Value) {
    match v
    case Undefined => false
    case Null => false
    case Bool(b) => b
    case Num(n) => n != 0
    case Str(s) => s != ""
    case List(_) => true
    case Obj(_) => true
  }

  /** `a || b`. */
  function Or(a: Value, b: Value): (r: Value)
    ensures Truthy(a) ==> r == a
    ensures !Truthy(a) ==> r == b
  {
    if Truthy(a) then a else b
  }

  function Min(a: int, b: int): int { if a <= b then a else b }
  function Max(a: int, b: int): int { if a <= b then b else a }

  lemma AppendAssoc<T>(a: seq<T>, b: seq<T>, c: seq<T>)
    ensures (a + b) + c == a + (b + c)
  {
  }

  predicate Distinct<T(==)>(s: seq<T>) {
    forall i, j :: 0 <= i < j < |s| ==> s[i] != s[j]
  }

  /** `s.filter(y => y !== x)` on a list of identities: every element except
      x, in order. */
  function Without(s: seq<string>, x: string): (r: seq<string>)
    ensures |r| <= |s|
    ensures x in s ==> |r| < |s|
    ensures forall y :: y in r <==> y in s && y != x
    ensures Distinct(s) ==> Distinct(r)
    decreases |s|
  {
    if s == [] then []
    else
      DistinctTail(s);
      if s[0] == x then Without(s[1..], x)
      else
        var rest := Without(s[1..], x);
        assert forall y :: y in rest ==> y in s[1..];
        [s[0]] + rest
  }

  lemma DistinctTail<T>(s: seq<T>)
    requires s != []
    ensures Distinct(s) ==> Distinct(s[1..]) && s[0] !in s[1..]
  {
    if Distinct(s) {
      var tail := s[1..];
      forall i, j | 0 <= i < j < |tail| ensures tail[i] != tail[j] {
        assert tail[i] == s[i + 1] && tail[j] == s[j + 1];
      }
      forall i | 0 <= i < |tail| ensures tail[i] != s[0] {
        assert tail[i] == s[i + 1];
      }
    }
  }

  lemma {:induction false} WithoutAbsent(s: seq<string>, x: string)
    requires x !in s
    ensures Without(s, x) == s
    decreases |s|
  {
    if s != [] {
      WithoutAbsent(s[1..], x);
    }
  }

  lemma {:induction false} WithoutAppend(a: seq<string>, b: seq<string>, x: string)
    ensures Without(a + b, x) == Without(a, x) + Without(b, x)
    decreases |a|
  {
    if a == [] {
      assert a + b == b;
    } else {
      assert (a + b)[1..] == a[1..] + b;
      WithoutAppend(a[1..], b, x);
    }
  }

  /** A sequence without repetitions has as many distinct elements as entries. */
  lemma {:induction false} DistinctCardinality<T>(s: seq<T>)
    requires Distinct(s)
    ensures |set y | y in s| == |s|
    decreases |s|
  {
    if s != [] {
      var tail := s[1..];
      DistinctTail(s);
      DistinctCardinality(tail);
      assert (set y | y in s) == (set y | y in tail) + {s[0]};
    }
  }
}
