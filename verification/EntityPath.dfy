/**
 * `String.Split(string[] { sep }, StringSplitOptions.None)` with a single non-empty separator,
 * and the queue / topic-subscription decision that MessagingProvider makes on an entity path.
 *
 * The split scans left to right and cuts at every non-overlapping occurrence of the separator:
 * after an occurrence at index i the scan resumes at i + |sep|.
 */
module EntityPath {
  import opened Wrappers

  /** The literal marker that separates a topic from a subscription in an entity path. */
  const SubscriptionsMarker: string := "/Subscriptions/"

  predicate OccursAt(s: string, sep: string, i: nat)
  {
    i + |sep| <= |s| && forall k | 0 <= k < |sep| :: s[i + k] == sep[k]
  }

  predicate Contains(s: string, sep: string)
  {
    exists i: nat | i <= |s| :: OccursAt(s, sep, i)
  }

  /** The first occurrence of `sep` in `s` at or after `from`. */
  function IndexOf(s: string, sep: string, from: nat): (r: Option<nat>)
    requires |sep| > 0
    ensures r.Some? ==> from <= r.value && OccursAt(s, sep, r.value)
    ensures r.Some? ==> forall j: nat :: from <= j < r.value ==> !OccursAt(s, sep, j)
    ensures r.None? ==> forall j: nat :: from <= j ==> !OccursAt(s, sep, j)
    decreases |s| - from
  {
    if from + |sep| > |s| then None
    else if OccursAt(s, sep, from) then Some(from)
    else IndexOf(s, sep, from + 1)
  }

  /** The segments of `s` between the non-overlapping occurrences of `sep`, found left to right. */
  function Split(s: string, sep: string): seq<string>
    requires |sep| > 0
    decreases |s|
  {
    match IndexOf(s, sep, 0)
    case None => [s]
    case Some(i) => [s[..i]] + Split(s[i + |sep|..], sep)
  }

  /** A split always yields at least one segment. */
  lemma SplitNonEmpty(s: string, sep: string)
    requires |sep| > 0
    ensures |Split(s, sep)| >= 1
  {
  }

  /** `string.Join(sep, parts)`. */
  function Join(parts: seq<string>, sep: string): string
  {
    if |parts| == 0 then ""
    else if |parts| == 1 then parts[0]
    else parts[0] + sep + Join(parts[1..], sep)
  }

  /** Joining the segments with the separator gives back the original string. */
  lemma {:induction false} JoinSplit(s: string, sep: string)
    requires |sep| > 0
    ensures Join(Split(s, sep), sep) == s
    decreases |s|
  {
    var first := IndexOf(s, sep, 0);
    if first.Some? {
      var i := first.value;
      var rest := s[i + |sep|..];
      assert Split(s, sep) == [s[..i]] + Split(rest, sep);
      JoinSplit(rest, sep);
      JoinCons(s[..i], Split(rest, sep), sep);
      assert s[i..i + |sep|] == sep;
      assert s == s[..i] + sep + rest;
    }
  }

  lemma JoinCons(head: string, tail: seq<string>, sep: string)
    requires |tail| >= 1
    ensures Join([head] + tail, sep) == head + sep + Join(tail, sep)
  {
    assert ([head] + tail)[1..] == tail;
  }

  /** An occurrence inside a prefix is an occurrence in the whole string. */
  lemma OccursInPrefix(s: string, n: nat, sep: string, j: nat)
    requires n <= |s|
    ensures OccursAt(s[..n], sep, j) ==> OccursAt(s, sep, j)
  {
  }

  /** An occurrence that ends within a prefix is an occurrence in that prefix. */
  lemma OccursWithinPrefix(s: string, n: nat, sep: string, j: nat)
    requires j + |sep| <= n <= |s|
    ensures OccursAt(s, sep, j) ==> OccursAt(s[..n], sep, j)
  {
  }

  /** An occurrence inside a suffix is an occurrence in the whole string, shifted. */
  lemma OccursInSuffix(s: string, n: nat, sep: string, j: nat)
    requires n <= |s|
    requires OccursAt(s[n..], sep, j)
    ensures OccursAt(s, sep, n + j)
  {
    assert s[n..][j..j + |sep|] == s[n + j..n + j + |sep|];
  }

  /** An occurrence at or after `n` is an occurrence in the suffix from `n`, shifted. */
  lemma OccursInRest(s: string, n: nat, sep: string, j: nat)
    requires n <= j && OccursAt(s, sep, j)
    ensures OccursAt(s[n..], sep, j - n)
  {
    assert s[n..][j - n..j - n + |sep|] == s[j..j + |sep|];
  }

  /** A string splits into one segment exactly when the separator does not occur in it. */
  lemma SplitSingle(s: string, sep: string)
    requires |sep| > 0
    ensures |Split(s, sep)| == 1 <==> !Contains(s, sep)
    ensures !Contains(s, sep) ==> Split(s, sep) == [s]
  {
    match IndexOf(s, sep, 0)
    case None =>
    case Some(i) =>
      assert OccursAt(s, sep, i);
  }

  /** No segment of a split contains the separator. */
  lemma {:induction false} SplitSegmentsFree(s: string, sep: string)
    requires |sep| > 0
    ensures forall k :: 0 <= k < |Split(s, sep)| ==> !Contains(Split(s, sep)[k], sep)
    decreases |s|
  {
    var first := IndexOf(s, sep, 0);
    if first.Some? {
      var i := first.value;
      var rest := s[i + |sep|..];
      SplitFirstCut(s, sep, i);
      SplitSegmentsFree(rest, sep);
      NoOccurrenceBefore(s, sep, i);
      var parts := Split(s, sep);
      forall k | 0 <= k < |parts|
        ensures !Contains(parts[k], sep)
      {
        if k > 0 {
          assert parts[k] == Split(rest, sep)[k - 1];
        }
      }
    }
  }

  /** The first cut of a split: the segment before the first occurrence, then the split of the rest. */
  lemma SplitFirstCut(s: string, sep: string, i: nat)
    requires |sep| > 0 && IndexOf(s, sep, 0) == Some(i)
    ensures i + |sep| <= |s|
    ensures Split(s, sep) == [s[..i]] + Split(s[i + |sep|..], sep)
  {
    assert OccursAt(s, sep, i);
    var rest := s[i + |sep|..];
    var lhs := Split(s, sep);
    var rhs := [s[..i]] + Split(rest, sep);
    assert |lhs| == |rhs|;
    assert forall k | 0 <= k < |lhs| :: lhs[k] == rhs[k];
  }


  /** A string is what comes before an occurrence, the separator, and what comes after it. */
  lemma AroundOccurrence(s: string, sep: string, i: nat)
    requires OccursAt(s, sep, i)
    ensures s == s[..i] + sep + s[i + |sep|..]
  {
    assert s[i..i + |sep|] == sep;
  }

  /** The segment before the first occurrence holds no occurrence. */
  lemma NoOccurrenceBefore(s: string, sep: string, i: nat)
    requires |sep| > 0 && IndexOf(s, sep, 0) == Some(i)
    ensures !Contains(s[..i], sep)
  {
    forall j: nat | j <= i
      ensures !OccursAt(s[..i], sep, j)
    {
      OccursInPrefix(s, i, sep, j);
    }
  }

  /** A prefix ending one short of the first occurrence's end holds no occurrence. */
  lemma NoOccurrenceBeforeFirst(s: string, sep: string, i: nat)
    requires |sep| > 0 && IndexOf(s, sep, 0) == Some(i)
    ensures !Contains(s[..i + |sep| - 1], sep)
  {
    var pre := s[..i + |sep| - 1];
    forall j: nat | j <= |pre|
      ensures !OccursAt(pre, sep, j)
    {
      OccursInPrefix(s, i + |sep| - 1, sep, j);
    }
  }

  /** When a string splits into two segments, it is the first, the separator and the second. */
  lemma SplitTwoShape(s: string, sep: string)
    requires |sep| > 0 && |Split(s, sep)| == 2
    ensures Split(s, sep)[0] + sep[..|sep| - 1] == s[..|Split(s, sep)[0]| + |sep| - 1]
    ensures s == Split(s, sep)[0] + sep + Split(s, sep)[1]
    ensures !Contains(Split(s, sep)[0] + sep[..|sep| - 1], sep)
    ensures !Contains(Split(s, sep)[1], sep)
  {
    var i := IndexOf(s, sep, 0).value;
    var rest := s[i + |sep|..];
    SplitFirstCut(s, sep, i);
    AroundOccurrence(s, sep, i);
    SplitSingle(rest, sep);
    var parts := Split(s, sep);
    assert parts[0] == s[..i];
    assert parts[1] == rest;
    NoOccurrenceBeforeFirst(s, sep, i);
  }

  /** `a + sep + b` splits into `a` and `b` when the first occurrence is the one after `a`. */
  lemma SplitOfTwo(a: string, sep: string, b: string)
    requires |sep| > 0
    requires !Contains(a + sep[..|sep| - 1], sep) && !Contains(b, sep)
    ensures Split(a + sep + b, sep) == [a, b]
  {
    var s := a + sep + b;
    var pre := a + sep[..|sep| - 1];
    assert OccursAt(s, sep, |a|) by {
      assert s[|a|..|a| + |sep|] == sep;
    }
    var i := IndexOf(s, sep, 0).value;
    forall j: nat | j < |a|
      ensures !OccursAt(s, sep, j)
    {
      OccursWithinPrefix(s, |pre|, sep, j);
      assert s[..|pre|] == pre;
    }
    assert i == |a|;
    SplitFirstCut(s, sep, i);
    AroundOccurrence(s, sep, i);
    assert s[..i] == a;
    assert s[i + |sep|..] == b;
    SplitSingle(b, sep);
  }

  /**
   * A string splits into exactly the two segments `a` and `b` if and only if it is
   * `a + sep + b`, the separator first occurs right after `a` (no occurrence starts inside `a`,
   * even one that runs into the separator), and `b` holds no occurrence.
   */
  lemma SplitTwo(s: string, sep: string, a: string, b: string)
    requires |sep| > 0
    ensures Split(s, sep) == [a, b] <==>
              s == a + sep + b && !Contains(a + sep[..|sep| - 1], sep) && !Contains(b, sep)
  {
    if Split(s, sep) == [a, b] {
      SplitTwoShape(s, sep);
    }
    if s == a + sep + b && !Contains(a + sep[..|sep| - 1], sep) && !Contains(b, sep) {
      SplitOfTwo(a, sep, b);
    }
  }

  /**
   * Two occurrences that do not overlap always give at least three segments: the scan cuts
   * at the first occurrence, and the later one still lies wholly in what is left.
   */
  lemma SplitTwoOccurrences(s: string, sep: string, i: nat, j: nat)
    requires |sep| > 0
    requires OccursAt(s, sep, i) && OccursAt(s, sep, j) && i + |sep| <= j
    ensures |Split(s, sep)| >= 3
  {
    var f := IndexOf(s, sep, 0).value;
    var rest := s[f + |sep|..];
    SplitFirstCut(s, sep, f);
    OccursInRest(s, f + |sep|, sep, j);
    SplitSingle(rest, sep);
  }

  /** The separator cannot occur where its first character does not. */
  lemma NoOccurrence(s: string, sep: string)
    requires |sep| > 0
    requires forall j :: 0 <= j && j + |sep| <= |s| ==> s[j] != sep[0]
    ensures !Contains(s, sep)
  {
    forall j: nat | j <= |s|
      ensures !OccursAt(s, sep, j)
    {
      if j + |sep| <= |s| {
        assert s[j..j + |sep|][0] == s[j];
      }
    }
  }

  /** The client kind chosen for an entity path. */
  datatype EntityKind =
    | Queue(queuePath: string)
    | Subscription(topicPath: string, subscriptionName: string)

  /**
   * Split the path on the marker; exactly two segments make a subscription of topic segment 0
   * with subscription segment 1, any other count makes a queue on the unmodified path.
   */
  function ParseEntityPath(entityPath: string): (k: EntityKind)
    ensures k.Queue? ==> k.queuePath == entityPath
    ensures k.Subscription? ==> entityPath == k.topicPath + SubscriptionsMarker + k.subscriptionName
  {
    var parts := Split(entityPath, SubscriptionsMarker);
    if |parts| == 2 then
      JoinSplit(entityPath, SubscriptionsMarker);
      assert Join(parts, SubscriptionsMarker) == parts[0] + SubscriptionsMarker + parts[1];
      Subscription(parts[0], parts[1])
    else
      Queue(entityPath)
  }

  /** The path a client kind addresses; the inverse of ParseEntityPath. */
  function PathOf(k: EntityKind): string
  {
    match k
    case Queue(p) => p
    case Subscription(t, s) => t + SubscriptionsMarker + s
  }

  /** Parsing never loses the path: the chosen kind addresses the very path it came from. */
  lemma PathOfParse(entityPath: string)
    ensures PathOf(ParseEntityPath(entityPath)) == entityPath
  {
  }

  /** The subscription branch is taken exactly for `topic + marker + subscription` with one cut. */
  lemma SubscriptionIff(entityPath: string, topic: string, subscription: string)
    ensures ParseEntityPath(entityPath) == Subscription(topic, subscription) <==>
              && entityPath == topic + SubscriptionsMarker + subscription
              && !Contains(topic + SubscriptionsMarker[..|SubscriptionsMarker| - 1], SubscriptionsMarker)
              && !Contains(subscription, SubscriptionsMarker)
  {
    SplitTwo(entityPath, SubscriptionsMarker, topic, subscription);
  }

  /** A path without the marker is a queue on that path. */
  lemma NoMarkerIsQueue(entityPath: string)
    requires !Contains(entityPath, SubscriptionsMarker)
    ensures ParseEntityPath(entityPath) == Queue(entityPath)
  {
    SplitSingle(entityPath, SubscriptionsMarker);
  }

  /** A path with two non-overlapping markers is a queue on the unmodified path. */
  lemma TwoMarkersIsQueue(entityPath: string, i: nat, j: nat)
    requires OccursAt(entityPath, SubscriptionsMarker, i)
    requires OccursAt(entityPath, SubscriptionsMarker, j)
    requires i + |SubscriptionsMarker| <= j
    ensures ParseEntityPath(entityPath) == Queue(entityPath)
  {
    SplitTwoOccurrences(entityPath, SubscriptionsMarker, i, j);
  }

  lemma QueueExample()
    ensures ParseEntityPath("orders") == Queue("orders")
  {
  }

  lemma SubscriptionExample()
    ensures ParseEntityPath("orders" + SubscriptionsMarker + "billing") == Subscription("orders", "billing")
  {
    var topic := "orders";
    NoOccurrence(topic + SubscriptionsMarker[..|SubscriptionsMarker| - 1], SubscriptionsMarker);
    NoOccurrence("billing", SubscriptionsMarker);
    SubscriptionIff(topic + SubscriptionsMarker + "billing", topic, "billing");
  }

  lemma EmptyTopicExample()
    ensures ParseEntityPath(SubscriptionsMarker + "x") == Subscription("", "x")
  {
    assert "" + SubscriptionsMarker + "x" == SubscriptionsMarker + "x";
    NoOccurrence("" + SubscriptionsMarker[..|SubscriptionsMarker| - 1], SubscriptionsMarker);
    NoOccurrence("x", SubscriptionsMarker);
    SubscriptionIff(SubscriptionsMarker + "x", "", "x");
  }

  lemma TwoMarkersExample()
    ensures var p := "a" + SubscriptionsMarker + "b" + SubscriptionsMarker + "c";
            ParseEntityPath(p) == Queue(p)
  {
    var p := "a" + SubscriptionsMarker + "b" + SubscriptionsMarker + "c";
    var m := |SubscriptionsMarker|;
    assert p[1..1 + m] == SubscriptionsMarker;
    assert p[2 + m..2 + m + m] == SubscriptionsMarker;
    TwoMarkersIsQueue(p, 1, 2 + m);
  }

  lemma OverlappingMarkersExample()
    ensures ParseEntityPath("t" + SubscriptionsMarker + "Subscriptions/u") == Subscription("t", "Subscriptions/u")
  {
    NoOccurrence("t" + SubscriptionsMarker[..|SubscriptionsMarker| - 1], SubscriptionsMarker);
    NoOccurrence("Subscriptions/u", SubscriptionsMarker);
    SubscriptionIff("t" + SubscriptionsMarker + "Subscriptions/u", "t", "Subscriptions/u");
  }
}
