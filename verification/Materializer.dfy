/** Rotating a transcript whose compaction was never materialised. A line is its parsed form; rendering and
    parsing a header is the identity on it. */
module Materializer {
  import opened OrderedMaps

  datatype Kind = Session | Compaction | OtherKind

  /** Blank lines and lines that are not JSON objects carry no fields. An id that is not a string is `None`. */
  datatype Line =
    | Blank
    | Opaque(text: string)
    | Record(kind: Kind, id: Option<string>, firstKeptEntryId: Option<string>, timestamp: Option<string>, rest: string)

  datatype Detection = Detection(
    unrotated: bool, compactionIndex: Option<nat>, firstKeptIndex: Option<nat>, compactionEntry: Option<Line>)

  const NOT_FOUND := Detection(false, None, None, None)

  predicate IsCompaction(line: Line) {
    line.Record? && line.kind == Compaction
  }

  predicate HasId(line: Line, id: string) {
    line.Record? && line.id == Some(id)
  }

  /** The last compaction line, or -1. */
  function LastCompaction(lines: seq<Line>): (i: int)
    ensures -1 <= i < |lines|
    ensures i >= 0 ==> IsCompaction(lines[i])
    ensures forall j :: i < j < |lines| ==> !IsCompaction(lines[j])
  {
    if lines == [] then -1
    else if IsCompaction(lines[|lines| - 1]) then |lines| - 1
    else LastCompaction(lines[..|lines| - 1])
  }

  /** The first line from `k` on with the given id; the number of lines if there is none. */
  function FirstWithId(lines: seq<Line>, id: string, k: nat): (i: nat)
    requires k <= |lines|
    ensures k <= i <= |lines|
    ensures i < |lines| ==> HasId(lines[i], id)
    ensures forall j :: k <= j < i ==> !HasId(lines[j], id)
    decreases |lines| - k
  {
    if k == |lines| || HasId(lines[k], id) then k else FirstWithId(lines, id, k + 1)
  }

  /** The compaction and the first kept line that a detection refers to. */
  ghost predicate Refers(lines: seq<Line>, c: nat, f: nat) {
    && c < |lines| && f < |lines| && LastCompaction(lines) == c
    && lines[c].firstKeptEntryId.Some? && lines[c].firstKeptEntryId.value != ""
    && FirstWithId(lines, lines[c].firstKeptEntryId.value, 0) == f
  }

  method DetectUnrotatedCompaction(lines: seq<Line>, minLinesBeforeKept: int) returns (d: Detection)
    ensures d.firstKeptIndex.Some? ==>
              && d.compactionIndex.Some? && Refers(lines, d.compactionIndex.value, d.firstKeptIndex.value)
              && d.compactionEntry == Some(lines[d.compactionIndex.value])
    ensures d.firstKeptIndex.None? ==> forall c, f :: !Refers(lines, c, f)
    ensures d.unrotated <==> d.firstKeptIndex.Some? && d.firstKeptIndex.value >= minLinesBeforeKept
  {
    var last := |lines| - 1;
    while last >= 0 && !IsCompaction(lines[last])
      invariant -1 <= last < |lines| && LastCompaction(lines) == LastCompaction(lines[..last + 1])
    {
      assert lines[..last + 1][..last] == lines[..last];
      last := last - 1;
    }
    if last == -1 {
      return NOT_FOUND;
    }
    assert lines[..last + 1][last] == lines[last];
    var entry := lines[last];
    var target := entry.firstKeptEntryId;
    if target.None? || target.value == "" {
      return Detection(false, Some(last), None, Some(entry));
    }
    var first := 0;
    while first < |lines| && !HasId(lines[first], target.value)
      invariant 0 <= first <= |lines| && FirstWithId(lines, target.value, 0) == FirstWithId(lines, target.value, first)
    {
      first := first + 1;
    }
    if first == |lines| {
      return Detection(false, Some(last), None, Some(entry));
    }
    d := Detection(first >= minLinesBeforeKept, Some(last), Some(first), Some(entry));
  }

  predicate HasHeader(lines: seq<Line>) {
    lines != [] && lines[0].Record? && lines[0].kind == Session
  }

  function Header(line: Line, newSessionId: string, timestamp: string): Line
    requires line.Record?
  {
    line.(id := Some(newSessionId), timestamp := Some(timestamp))
  }

  datatype Successor = Successor(lines: seq<Line>, hasSessionHeader: bool) | Refused

  /** A new header if there was one, the compaction line if it is not among the kept lines, and the kept
      lines. Without both indices the source throws. */
  method BuildSuccessorLines(lines: seq<Line>, d: Detection, newSessionId: string, timestamp: string) returns (r: Successor)
    requires d.compactionIndex.Some? ==> d.compactionIndex.value < |lines|
    requires d.firstKeptIndex.Some? ==> d.firstKeptIndex.value <= |lines|
    ensures r.Refused? <==> d.compactionIndex.None? || d.firstKeptIndex.None?
    ensures r.Successor? ==>
              && r.lines == Successors(lines, d.compactionIndex.value, d.firstKeptIndex.value, newSessionId, timestamp)
              && r.hasSessionHeader == HasHeader(lines)
  {
    if d.compactionIndex.None? || d.firstKeptIndex.None? {
      return Refused;
    }
    var result: seq<Line> := [];
    var hasSessionHeader := false;
    if |lines| > 0 && lines[0].Record? && lines[0].kind == Session {
      result := result + [Header(lines[0], newSessionId, timestamp)];
      hasSessionHeader := true;
    }
    var c, f := d.compactionIndex.value, d.firstKeptIndex.value;
    if c < f {
      result := result + [lines[c]];
    }
    ghost var prefix := result;
    for i := f to |lines|
      invariant result == prefix + lines[f..i]
    {
      assert lines[f..i] + [lines[i]] == lines[f..i + 1];
      result := result + [lines[i]];
    }
    r := Successor(result, hasSessionHeader);
  }

  /** What precedes the kept lines. */
  function Preamble(lines: seq<Line>, c: nat, f: nat, newSessionId: string, timestamp: string): (r: seq<Line>)
    requires c < |lines| && f <= |lines|
    ensures |r| <= 2
  {
    (if HasHeader(lines) then [Header(lines[0], newSessionId, timestamp)] else []) + (if c < f then [lines[c]] else [])
  }

  function Successors(lines: seq<Line>, c: nat, f: nat, newSessionId: string, timestamp: string): seq<Line>
    requires c < |lines| && f <= |lines|
  {
    Preamble(lines, c, f, newSessionId, timestamp) + lines[f..]
  }

  /** Where the first kept line is afterwards: right after the preamble, unless the new header happens to
      carry its id. */
  function KeptIndex(lines: seq<Line>, c: nat, f: nat, newSessionId: string): (i: nat)
    requires c < |lines| && f <= |lines|
    ensures i <= 2
  {
    if HasHeader(lines) && lines[c].Record? && lines[c].firstKeptEntryId == Some(newSessionId) then 0
    else (if HasHeader(lines) then 1 else 0) + (if c < f then 1 else 0)
  }

  lemma {:induction false} LastCompactionIs(lines: seq<Line>, c: nat)
    requires c < |lines| && IsCompaction(lines[c]) && forall j :: c < j < |lines| ==> !IsCompaction(lines[j])
    ensures LastCompaction(lines) == c
  {
  }

  lemma FirstWithIdIs(lines: seq<Line>, id: string, f: nat)
    requires f < |lines| && HasId(lines[f], id) && forall j :: 0 <= j < f ==> !HasId(lines[j], id)
    ensures FirstWithId(lines, id, 0) == f
  {
  }

  /** Rotation keeps the compaction and what it refers to: the kept lines follow verbatim, the compaction
      line is still the last one, and its first kept line is found right after the preamble. */
  lemma RotationKeepsReference(lines: seq<Line>, c: nat, f: nat, newSessionId: string, timestamp: string)
    requires Refers(lines, c, f)
    ensures var s := Successors(lines, c, f, newSessionId, timestamp);
            var c' := if c < f then |s| - (|lines| - f) - 1 else c - f + |s| - (|lines| - f);
            && s[|s| - (|lines| - f)..] == lines[f..]
            && 0 <= c' < |s| && s[c'] == lines[c]
            && Refers(s, c', KeptIndex(lines, c, f, newSessionId))
  {
    hide LastCompaction, FirstWithId;
    var s := Successors(lines, c, f, newSessionId, timestamp);
    var pre := Preamble(lines, c, f, newSessionId, timestamp);
    var m := |pre|;
    var c' := if c < f then m - 1 else c - f + m;
    var id := lines[c].firstKeptEntryId.value;
    assert forall j :: m <= j < |s| ==> s[j] == lines[j - m + f];
    assert s[c'] == lines[c];
    forall j | c' < j < |s| ensures !IsCompaction(s[j]) { assert j >= m; }
    LastCompactionIs(s, c');
    var k := KeptIndex(lines, c, f, newSessionId);
    assert c < f ==> !HasId(lines[c], id);
    if k != 0 { assert k == m && s[m] == lines[f]; }
    forall j | 0 <= j < k ensures !HasId(s[j], id) {}
    FirstWithIdIs(s, id, k);
  }

  /** Rotating reaches a fixed point: on the rotated transcript the same compaction is found with a first
      kept line at most two lines in, so the detection fires again exactly for thresholds up to there. */
  lemma RotationIsFinal(lines: seq<Line>, c: nat, f: nat, newSessionId: string, timestamp: string, c': nat, f': nat)
    requires Refers(lines, c, f) && Refers(Successors(lines, c, f, newSessionId, timestamp), c', f')
    ensures Successors(lines, c, f, newSessionId, timestamp)[c'] == lines[c]
    ensures f' == KeptIndex(lines, c, f, newSessionId) <= 2
  {
    RotationKeepsReference(lines, c, f, newSessionId, timestamp);
  }

  /** Detecting, rotating and detecting again: with a threshold above two the second detection does not
      fire, and the compaction entry is the same. */
  method RotateOnce(lines: seq<Line>, minLinesBeforeKept: int, newSessionId: string, timestamp: string)
    returns (rotated: seq<Line>, again: Detection)
    requires minLinesBeforeKept > 2
    ensures !again.unrotated
    ensures (forall c: nat, f: nat :: Refers(lines, c, f) ==> f < minLinesBeforeKept) ==> rotated == lines
    ensures forall c: nat, f: nat :: Refers(lines, c, f) && f >= minLinesBeforeKept ==>
              && rotated == Successors(lines, c, f, newSessionId, timestamp)
              && again.compactionEntry == Some(lines[c]) && again.firstKeptIndex.Some?
  {
    var d := DetectUnrotatedCompaction(lines, minLinesBeforeKept);
    rotated := lines;
    again := d;
    if d.unrotated {
      var r := BuildSuccessorLines(lines, d, newSessionId, timestamp);
      rotated := r.lines;
      again := DetectUnrotatedCompaction(rotated, minLinesBeforeKept);
      RotationKeepsReference(lines, d.compactionIndex.value, d.firstKeptIndex.value, newSessionId, timestamp);
      if again.firstKeptIndex.Some? {
        RotationIsFinal(lines, d.compactionIndex.value, d.firstKeptIndex.value, newSessionId, timestamp,
                        again.compactionIndex.value, again.firstKeptIndex.value);
      }
    }
  }

  /** The successor is as long as what it keeps, and begins with the old header under its new id and time when there was
      a header. */
  lemma HeaderIsRenewed(lines: seq<Line>, c: nat, f: nat, newSessionId: string, timestamp: string)
    requires c < |lines| && f <= |lines|
    ensures var s := Successors(lines, c, f, newSessionId, timestamp);
            && |s| == (if HasHeader(lines) then 1 else 0) + (if c < f then 1 else 0) + (|lines| - f)
            && (HasHeader(lines) ==>
                  s[0] == Record(Session, Some(newSessionId), lines[0].firstKeptEntryId, Some(timestamp), lines[0].rest))
            && (c < f ==> s[|s| - (|lines| - f) - 1] == lines[c])
            && s[|s| - (|lines| - f)..] == lines[f..]
  {
  }
}
