/** The rows of the attribution database that several services share
    (backend/internal/models/models.go), and the two query shapes the services
    use on them: a WHERE filter and an ORDER BY on one time column. */
module Schema {
  import opened Common

  /** A timestamp in nanoseconds since the Unix epoch, Go's `time.Time` resolution. */
  type Time = int

  const NanosPerSecond: int := 1_000_000_000
  const NanosPerHour: int := 3_600 * NanosPerSecond

  /** One identifier of a customer as a caller supplies it. */
  datatype CustomerIdentifier = CustomerIdentifier(
    kind: string, value: string, sourceSystem: string, isPrimary: bool)

  /** A stored row of `customer_identifiers`. */
  datatype IdentifierRow = IdentifierRow(
    customerId: int, kind: string, value: string, sourceSystem: string,
    isPrimary: bool, createdAt: Time)

  /** A stored row of `interactions` (raw metadata left out). */
  datatype Interaction = Interaction(
    id: int, tenantId: int, customerId: Option<int>, externalId: string,
    channelId: int, vendorId: Option<int>, startedAt: Time, endedAt: Option<Time>,
    durationSeconds: Option<int>, direction: string, language: string,
    transcriptLocation: string, primaryIntent: string,
    secondaryIntents: Option<seq<string>>, outcomePrediction: string,
    purchaseProbability: Option<real>)

  /** A stored row of `interaction_participants` (metadata left out). */
  datatype Participant = Participant(
    interactionId: int, participantType: string, agentId: Option<int>, role: string)

  /** A stored row of `conversion_events` (raw payload left out). */
  datatype ConversionEvent = ConversionEvent(
    id: int, tenantId: int, customerId: int, eventSourceId: int,
    externalEventId: string, eventType: string, productId: Option<int>,
    currencyId: int, amount: real, occurredAt: Time)

  /** `WHERE p`: the rows satisfying `p`, in table order. */
  function Filter<T(!new)>(s: seq<T>, p: T -> bool): (r: seq<T>)
    ensures |r| <= |s|
    ensures forall x :: x in r <==> x in s && p(x)
    ensures forall i :: 0 <= i < |r| ==> p(r[i])
  {
    if |s| == 0 then []
    else if p(s[0]) then [s[0]] + Filter(s[1..], p)
    else Filter(s[1..], p)
  }

  lemma {:induction false} FilterMultiset<T(!new)>(s: seq<T>, p: T -> bool, x: T)
    ensures multiset(Filter(s, p))[x] == if p(x) then multiset(s)[x] else 0
  {
    if |s| > 0 {
      FilterMultiset(s[1..], p, x);
      assert s == [s[0]] + s[1..];
      assert multiset(s) == multiset{s[0]} + multiset(s[1..]);
      if p(s[0]) {
        assert Filter(s, p) == [s[0]] + Filter(s[1..], p);
      } else {
        assert Filter(s, p) == Filter(s[1..], p);
      }
    }
  }

  predicate SortedBy<T>(s: seq<T>, key: T -> int)
  {
    forall i, j :: 0 <= i < j < |s| ==> key(s[i]) <= key(s[j])
  }

  function InsertBy<T>(x: T, s: seq<T>, key: T -> int): (r: seq<T>)
    requires SortedBy(s, key)
    ensures |r| == |s| + 1 && multiset(r) == multiset(s) + multiset{x}
    ensures SortedBy(r, key)
  {
    if |s| == 0 then [x]
    else if key(x) <= key(s[0]) then [x] + s
    else
      var t := InsertBy(x, s[1..], key);
      assert s == [s[0]] + s[1..];
      HeadStaysFirst(s[0], x, s[1..], t, key);
      [s[0]] + t
  }

  /** A head no greater than `x` and the rest of a sorted list stays in front
      of the rest with `x` inserted. */
  lemma HeadStaysFirst<T>(h: T, x: T, rest: seq<T>, t: seq<T>, key: T -> int)
    requires SortedBy([h] + rest, key) && key(h) < key(x)
    requires multiset(t) == multiset(rest) + multiset{x} && SortedBy(t, key)
    ensures SortedBy([h] + t, key)
  {
    forall k | 0 <= k < |t|
      ensures key(h) <= key(t[k])
    {
      assert t[k] in multiset(t);
      if t[k] != x {
        assert t[k] in multiset(rest);
        assert t[k] in rest;
        var m :| 0 <= m < |rest| && rest[m] == t[k];
        assert ([h] + rest)[m + 1] == rest[m];
        assert key(([h] + rest)[0]) <= key(([h] + rest)[m + 1]);
      }
    }
    forall i, j | 0 <= i < j < |[h] + t|
      ensures key(([h] + t)[i]) <= key(([h] + t)[j])
    {
      if i > 0 {
        assert ([h] + t)[i] == t[i - 1] && ([h] + t)[j] == t[j - 1];
      } else {
        assert ([h] + t)[j] == t[j - 1];
      }
    }
  }

  /** `ORDER BY key ASC`: a stable insertion sort. SQL leaves the order of rows
      with equal keys open; this model keeps their table order. */
  function SortBy<T>(s: seq<T>, key: T -> int): (r: seq<T>)
    ensures |r| == |s| && multiset(r) == multiset(s)
    ensures SortedBy(r, key)
  {
    if |s| == 0 then []
    else
      assert s == [s[0]] + s[1..];
      InsertBy(s[0], SortBy(s[1..], key), key)
  }

  /** `WHERE p ORDER BY key ASC`: exactly the rows satisfying `p`, sorted. */
  function SelectSorted<T(!new)>(s: seq<T>, p: T -> bool, key: T -> int): (r: seq<T>)
    ensures forall x :: x in r <==> x in s && p(x)
    ensures forall i :: 0 <= i < |r| ==> p(r[i])
    ensures SortedBy(r, key)
  {
    var f := Filter(s, p);
    var r := SortBy(f, key);
    SameElements(r, f);
    r
  }

  lemma SameElements<T>(a: seq<T>, b: seq<T>)
    requires multiset(a) == multiset(b)
    ensures forall x :: x in a <==> x in b
    ensures forall i :: 0 <= i < |a| ==> a[i] in b
  {
    forall x
      ensures x in a <==> x in b
    {
      assert x in a <==> x in multiset(a);
      assert x in b <==> x in multiset(b);
    }
  }
}
