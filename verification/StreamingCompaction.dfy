/** Splitting a transcript into segments that fit a byte budget. */
module StreamingCompaction {

  function Bytes<T>(ms: seq<T>, size: T -> nat): nat {
    if ms == [] then 0 else Bytes(ms[..|ms| - 1], size) + size(ms[|ms| - 1])
  }

  function Flatten<T>(segments: seq<seq<T>>): seq<T> {
    if segments == [] then [] else Flatten(segments[..|segments| - 1]) + segments[|segments| - 1]
  }

  /** A segment that may be sent: not empty, and within the budget unless it is a single message. */
  predicate Fits<T>(segment: seq<T>, size: T -> nat, budget: int) {
    segment != [] && (Bytes(segment, size) <= budget || |segment| == 1)
  }

  /** An order-preserving split into segments that fit. */
  ghost predicate IsSplit<T>(segments: seq<seq<T>>, ms: seq<T>, size: T -> nat, budget: int) {
    Flatten(segments) == ms && forall i :: 0 <= i < |segments| ==> Fits(segments[i], size, budget)
  }

  function Last<T>(s: seq<T>): T
    requires s != []
  {
    s[|s| - 1]
  }

  function Front<T>(s: seq<T>): seq<T>
    requires s != []
  {
    s[..|s| - 1]
  }

  /** The greedy split: a message opens a new segment exactly when it does not fit the current one. */
  function Segments<T>(ms: seq<T>, size: T -> nat, budget: int): seq<seq<T>> {
    if ms == [] then []
    else
      var before := Segments(Front(ms), size, budget);
      if before == [] then [[Last(ms)]]
      else if Bytes(Last(before), size) + size(Last(ms)) > budget then before + [[Last(ms)]]
      else Front(before) + [Last(before) + [Last(ms)]]
  }

  method SegmentMessages<T>(messages: seq<T>, size: T -> nat, budget: int) returns (segments: seq<seq<T>>)
    ensures segments == Segments(messages, size, budget)
  {
    segments := [];
    var current: seq<T> := [];
    var currentBytes := 0;
    for i := 0 to |messages|
      invariant currentBytes == Bytes(current, size) && (current == [] <==> i == 0)
      invariant Segments(messages[..i], size, budget) == if current == [] then [] else segments + [current]
      invariant current == [] ==> segments == []
    {
      var bytes := size(messages[i]);
      assert Front(messages[..i + 1]) == messages[..i];
      assert current != [] ==> Front(segments + [current]) == segments;
      if |current| > 0 && currentBytes + bytes > budget {
        segments := segments + [current];
        current := [];
        currentBytes := 0;
      }
      assert (current + [messages[i]])[..|current|] == current;
      current := current + [messages[i]];
      currentBytes := currentBytes + bytes;
    }
    assert messages[..|messages|] == messages;
    if |current| > 0 {
      segments := segments + [current];
    }
  }

  lemma FlattenAppend<T>(segments: seq<seq<T>>, s: seq<T>)
    ensures Flatten(segments + [s]) == Flatten(segments) + s
  {
    assert (segments + [s])[..|segments|] == segments;
  }

  lemma BytesAppend<T>(s: seq<T>, m: T, size: T -> nat)
    ensures Bytes(s + [m], size) == Bytes(s, size) + size(m)
  {
    assert (s + [m])[..|s|] == s;
  }

  lemma AppendSegment<T>(segments: seq<seq<T>>, ms: seq<T>, s: seq<T>, size: T -> nat, budget: int)
    requires IsSplit(segments, ms, size, budget) && Fits(s, size, budget)
    ensures IsSplit(segments + [s], ms + s, size, budget)
  {
    FlattenAppend(segments, s);
  }

  lemma DropSegment<T>(segments: seq<seq<T>>, ms: seq<T>, size: T -> nat, budget: int)
    requires IsSplit(segments, ms, size, budget) && segments != []
    ensures IsSplit(Front(segments), Flatten(Front(segments)), size, budget) && ms == Flatten(Front(segments)) + Last(segments)
    ensures Fits(Last(segments), size, budget)
  {
  }

  /** The greedy split loses nothing, reorders nothing and sends only segments that fit. */
  lemma {:induction false} SegmentsAreSplit<T>(ms: seq<T>, size: T -> nat, budget: int)
    ensures IsSplit(Segments(ms, size, budget), ms, size, budget)
    ensures ms != [] ==> Segments(ms, size, budget) != []
  {
    if ms != [] {
      var before, m := Segments(Front(ms), size, budget), Last(ms);
      SegmentsAreSplit(Front(ms), size, budget);
      assert ms == Front(ms) + [m];
      if before == [] || Bytes(Last(before), size) + size(m) > budget {
        AppendSegment(before, Front(ms), [m], size, budget);
      } else {
        DropSegment(before, Front(ms), size, budget);
        BytesAppend(Last(before), m, size);
        AppendSegment(Front(before), Flatten(Front(before)), Last(before) + [m], size, budget);
      }
    }
  }

  /** A longer suffix of the same messages is at least as big. */
  lemma {:induction false} SuffixBytes<T>(ms: seq<T>, i: nat, j: nat, size: T -> nat)
    requires i <= j <= |ms|
    ensures Bytes(ms[j..], size) <= Bytes(ms[i..], size)
    decreases |ms|
  {
    if j < |ms| {
      SuffixBytes(Front(ms), i, j, size);
      assert Front(ms[j..]) == Front(ms)[j..] && Front(ms[i..]) == Front(ms)[i..];
    }
  }

  lemma LastIsSuffix<T>(segments: seq<seq<T>>, ms: seq<T>)
    requires segments != [] && Flatten(segments) == ms
    ensures |Last(segments)| <= |ms| && Last(segments) == ms[|ms| - |Last(segments)|..]
  {
  }

  /** What is left of a split when its last message is taken away. */
  function Shorten<T>(segments: seq<seq<T>>): seq<seq<T>>
    requires segments != [] && Last(segments) != []
  {
    if |Last(segments)| == 1 then Front(segments) else Front(segments) + [Front(Last(segments))]
  }

  lemma ShortenIsSplit<T>(segments: seq<seq<T>>, ms: seq<T>, size: T -> nat, budget: int)
    requires IsSplit(segments, ms, size, budget) && segments != []
    ensures ms != [] && Last(segments) != [] && Last(Last(segments)) == Last(ms)
    ensures IsSplit(Shorten(segments), Front(ms), size, budget)
  {
    var last := Last(segments);
    assert Fits(last, size, budget);
    assert ms == Flatten(Front(segments)) + last;
    if |last| > 1 {
      FlattenAppend(Front(segments), Front(last));
      assert Front(last) + [Last(last)] == last;
      BytesAppend(Front(last), Last(last), size);
    }
  }

  /** Greedy stays ahead: any other split has more segments, or as many and a last one at least as long. */
  lemma {:induction false} GreedyStaysAhead<T>(ms: seq<T>, other: seq<seq<T>>, size: T -> nat, budget: int)
    requires IsSplit(other, ms, size, budget) && ms != []
    ensures other != [] && Segments(ms, size, budget) != []
    ensures var greedy := Segments(ms, size, budget);
            |greedy| < |other| || (|greedy| == |other| && |Last(greedy)| <= |Last(other)|)
    decreases |ms|
  {
    var front := Front(ms);
    ShortenIsSplit(other, ms, size, budget);
    SegmentsAreSplit(ms, size, budget);
    if front != [] {
      GreedyStaysAhead(front, Shorten(other), size, budget);
      var before := Segments(front, size, budget);
      var last := Last(other);
      if |last| > 1 && |before| == |other| {
        CannotAlsoFit(ms, before, other, size, budget);
      }
    }
  }

  /** If the greedy split needs a new segment, a segment of the other split that is at least as long
      cannot take the message either. */
  lemma CannotAlsoFit<T>(ms: seq<T>, before: seq<seq<T>>, other: seq<seq<T>>, size: T -> nat, budget: int)
    requires ms != [] && before != [] && before == Segments(Front(ms), size, budget)
    requires IsSplit(other, ms, size, budget) && other != [] && |Last(other)| > 1 && |Last(before)| < |Last(other)|
    ensures Bytes(Last(before), size) + size(Last(ms)) <= budget
  {
    hide Segments, Flatten, Bytes;
    var front, last := Front(ms), Last(other);
    SegmentsAreSplit(front, size, budget);
    LastIsSuffix(before, front);
    LastIsSuffix(other, ms);
    assert Fits(last, size, budget);
    assert Front(last) == front[|front| - (|last| - 1)..];
    SuffixBytes(front, |front| - (|last| - 1), |front| - |Last(before)|, size);
    assert last == Front(last) + [Last(ms)];
    BytesAppend(Front(last), Last(ms), size);
  }

  /** No split of the messages into fitting segments has fewer segments. */
  lemma FewestSegments<T>(ms: seq<T>, other: seq<seq<T>>, size: T -> nat, budget: int)
    requires IsSplit(other, ms, size, budget)
    ensures |Segments(ms, size, budget)| <= |other|
  {
    if ms != [] { GreedyStaysAhead(ms, other, size, budget); }
  }
}
