/** The scheduling decisions of the fair pool, and how far one decision brings a waiting topic. */
module FairScheduler {
  import opened OrderedMaps

  /** Round robin: the topic after the cursor, or the head when the cursor is unset or gone. */
  function PickNextTopic(nonEmpty: seq<string>, cursor: Option<string>): (next: Option<string>)
    ensures next.None? <==> nonEmpty == []
    ensures next.Some? ==> next.value in nonEmpty
  {
    if |nonEmpty| == 0 then None
    else if cursor.None? then Some(nonEmpty[0])
    else
      var idx := IndexOf(nonEmpty, cursor.value);
      if idx == -1 then Some(nonEmpty[0])
      else Some(nonEmpty[(idx + 1) % |nonEmpty|])
  }

  /** The pick is the first topic that comes after the cursor when the circle of topics is read from there, the cursor's
      own topic last. */
  lemma PickFollowsCursor(before: seq<string>, cursor: string, after: seq<string>)
    requires cursor !in before
    ensures PickNextTopic(before + [cursor] + after, Some(cursor)) == Some((after + before + [cursor])[0])
  {
    hide IndexOf;
    var keys := before + [cursor] + after;
    assert keys[..|before|] == before && keys[|before|] == cursor;
    IndexIs(keys, cursor, |before|);
    Wrap(|before|, |keys|);
    if after == [] {
      assert after + before + [cursor] == keys;
    } else {
      assert keys[|before| + 1] == after[0];
    }
  }

  lemma PickWithoutCursor(keys: seq<string>, cursor: Option<string>)
    requires keys != [] && (cursor.Some? ==> cursor.value !in keys)
    ensures PickNextTopic(keys, cursor) == Some(keys[0])
  {
  }

  datatype BackpressureResult = BackpressureResult(apply: bool, queueDepth: nat, threshold: int)

  function EvaluateBackpressure(queueDepth: nat, threshold: int): BackpressureResult {
    BackpressureResult(queueDepth > threshold, queueDepth, threshold)
  }

  // ----- how long a topic waits -----

  function CursorIndex(keys: seq<string>, cursor: Option<string>): (c: int)
    ensures -1 <= c < |keys|
  {
    if cursor.None? then -1 else IndexOf(keys, cursor.value)
  }

  /** An upper bound on the picks before position `p` is served if no queue ahead of it drains.
      `n` bounds the number of topics. A cursor that is absent may come back at the tail, so the
      room left for it counts. */
  function Distance(keys: seq<string>, cursor: Option<string>, n: int, p: int): int {
    var c := CursorIndex(keys, cursor);
    if c == -1 then (if p + 1 >= n - |keys| + p then p + 1 else n - |keys| + p)
    else if c < p then p - c
    else n - c + p
  }

  /** `a * b` by repeated addition, which keeps the arithmetic of waiting times linear. */
  function Mul(a: nat, b: int): int {
    if a == 0 then 0 else Mul(a - 1, b) + b
  }

  lemma {:induction false} MulIsProduct(a: nat, b: int)
    ensures Mul(a, b) == a * b
  {
    if a > 0 {
      MulIsProduct(a - 1, b);
      assert a * b == (a - 1) * b + b;
    }
  }

  lemma {:induction false} MulMonotone(a': nat, a: nat, b': int, b: int)
    requires a' <= a && 0 <= b' <= b
    ensures 0 <= Mul(a', b') <= Mul(a, b)
  {
    if a > 0 {
      MulMonotone(if a' == a then a' - 1 else a', a - 1, b', b);
    }
  }

  /** Dispatches in one full wait of a topic with `p` topics ahead of it among at most `n`. */
  function Lap(n: int, p: nat): int {
    n + Mul(p, n - 2)
  }

  lemma LapMonotone(n: int, p: nat, p': nat)
    requires p' <= p < n
    ensures 1 <= n <= Lap(n, p') <= Lap(n, p)
    ensures p' < p ==> Lap(n, p') + (n - 2) <= Lap(n, p)
  {
    if p > 0 {
      MulMonotone(p', if p' < p then p - 1 else p, n - 2, n - 2);
    }
  }

  /** Serving another topic brings `t` strictly closer, whether or not that topic drains. */
  lemma ServingAnotherApproaches(keys: seq<string>, cursor: Option<string>, n: int, p: nat, i: nat, drained: bool)
    requires Distinct(keys) && |keys| <= n && p < |keys| && i < |keys| && i != p
    requires PickNextTopic(keys, cursor) == Some(keys[i])
    ensures var keys' := if drained then WithoutIndex(keys, i) else keys;
            var p' := if drained && i < p then p - 1 else p;
            && p' < |keys'| && keys'[p'] == keys[p]
            && Distance(keys', Some(keys[i]), n, p') + Lap(n, p') < Distance(keys, cursor, n, p) + Lap(n, p)
  {
    PickIndex(keys, cursor, i);
    if drained {
      WithoutIndexFacts(keys, i);
      LapMonotone(n, p, if i < p then p - 1 else p);
    } else {
      IndexUnique(keys, i);
    }
  }

  /** The picked position, with the wrap written out. */
  lemma PickIndex(keys: seq<string>, cursor: Option<string>, i: nat)
    requires Distinct(keys) && i < |keys|
    ensures PickNextTopic(keys, cursor) == Some(keys[i]) ==>
              i == (if CursorIndex(keys, cursor) + 1 == |keys| then 0 else CursorIndex(keys, cursor) + 1)
  {
    var c := CursorIndex(keys, cursor);
    Wrap(c, |keys|);
    if PickNextTopic(keys, cursor) == Some(keys[i]) {
      assert keys[i] == keys[if c + 1 == |keys| then 0 else c + 1];
    }
  }

  lemma Wrap(c: int, n: nat)
    requires -1 <= c < n && 0 < n
    ensures (c + 1) % n == if c + 1 == n then 0 else c + 1
  {
  }

  /** A topic that joins at the tail does not push anyone back, not even when it is the cursor. */
  lemma ArrivalKeepsDistance(keys: seq<string>, cursor: Option<string>, n: int, p: nat, x: string)
    requires p < |keys| < n && x !in keys
    ensures Distance(keys + [x], cursor, n, p) <= Distance(keys, cursor, n, p)
  {
    if cursor.Some? {
      AppendIndex(keys, x, cursor.value);
    }
  }

  lemma DistanceWithinRound(keys: seq<string>, cursor: Option<string>, n: int, p: nat)
    requires p < |keys| <= n
    ensures 1 <= Distance(keys, cursor, n, p) <= n
  {
  }

  // ----- how often another topic overtakes -----

  /** `x` cannot be picked before position `p` unless some topic ahead of `p` drains first. */
  ghost predicate Behind(keys: seq<string>, cursor: Option<string>, p: nat, x: string)
    requires p < |keys|
  {
    cursor == Some(x) ||
    var c := CursorIndex(keys, cursor);
    var i := IndexOf(keys, x);
    if c == -1 then i > p
    else if c < p then i == -1 || i <= c || i > p
    else c > p && p < i <= c
  }

  /** Removing position `i`, behind position `p` of the waiting topic, leaves `x` where it cannot come up first. */
  lemma BehindAfterDrain(keys: seq<string>, p: nat, i: nat, x: string)
    requires Distinct(keys) && p < i < |keys|
    ensures Behind(WithoutIndex(keys, i), Some(keys[i]), p, x) <==> x == keys[i] || IndexOf(keys, x) > p
  {
    WithoutIndexFacts(keys, i);
    var j := IndexOf(keys, x);
    if j != -1 && j != i { IndexUnique(WithoutIndex(keys, i), if j < i then j else j - 1); }
  }

  lemma BehindAfterOther(keys: seq<string>, cursor: Option<string>, p: nat, i: nat, drained: bool, x: string)
    requires Distinct(keys) && p < |keys| && i < |keys| && i != p && x != keys[p]
    requires PickNextTopic(keys, cursor) == Some(keys[i])
    requires Behind(keys, cursor, p, x)
    requires !(drained && i < p)
    ensures keys[i] != x
    ensures Behind(if drained then WithoutIndex(keys, i) else keys, Some(keys[i]), p, x)
  {
    PickIndex(keys, cursor, i);
    IndexUnique(keys, i);
    if drained { BehindAfterDrain(keys, p, i, x); }
  }

  lemma ArrivalKeepsBehind(keys: seq<string>, cursor: Option<string>, p: nat, y: string, x: string)
    requires p < |keys| && y !in keys && Behind(keys, cursor, p, x)
    ensures Behind(keys + [y], cursor, p, x)
  {
    AppendIndex(keys, y, x);
    if cursor.Some? {
      AppendIndex(keys, y, cursor.value);
    }
  }
}
