/** Squashing bursts of transient tool results, and the tracker that counts the same bursts during a turn. */
module Rollup {
  import opened OrderedMaps
  import opened Texts

  /** A transcript entry after normalisation: its role, its tool name and its text. */
  datatype Entry = Entry(role: Option<string>, toolName: Option<string>, text: string)

  const ROLLUP_TOOL_NAME := "session_guard_rollup"

  predicate IsToolResult(e: Entry) {
    e.role == Some("toolResult") || (e.role.None? && e.toolName.Some?)
  }

  predicate IsTransientTool(name: Option<string>, tools: seq<string>) {
    name.Some? && name.value != "" && name.value in tools
  }

  /** What a rollup depends on: which entries are transient, the minimum size of a burst, and the entry that
      takes a burst's place. `Configured` gives the source's choice. */
  datatype Policy = Policy(transient: Entry -> bool, minBurstSize: int, summary: seq<Entry> -> Entry)

  // ----- bursts -----

  datatype BurstSegment = BurstSegment(start: nat, endExclusive: nat, size: nat, rollup: bool)

  /** Where the transient run that starts at `i` ends; `i` itself if there is none. */
  function RunEnd(entries: seq<Entry>, i: nat, p: Policy): (e: nat)
    requires i <= |entries|
    ensures i <= e <= |entries|
    decreases |entries| - i
  {
    if i == |entries| || !p.transient(entries[i]) then i else RunEnd(entries, i + 1, p)
  }

  function Burst(start: nat, size: nat, p: Policy): BurstSegment {
    BurstSegment(start, start + size, size, size >= p.minBurstSize)
  }

  /** The maximal transient runs from position `i` on. */
  function Bursts(entries: seq<Entry>, i: nat, p: Policy): seq<BurstSegment>
    requires i <= |entries|
    decreases |entries| - i
  {
    if i == |entries| then []
    else if !p.transient(entries[i]) then Bursts(entries, i + 1, p)
    else
      var e := RunEnd(entries, i + 1, p);
      [Burst(i, e - i, p)] + Bursts(entries, e, p)
  }

  /** A run of transient entries that cannot be made longer, with its size and whether it qualifies. */
  ghost predicate IsMaximalRun(entries: seq<Entry>, seg: BurstSegment, p: Policy) {
    && seg.start < seg.endExclusive <= |entries|
    && (forall j :: seg.start <= j < seg.endExclusive ==> p.transient(entries[j]))
    && (seg.start > 0 ==> !p.transient(entries[seg.start - 1]))
    && (seg.endExclusive < |entries| ==> !p.transient(entries[seg.endExclusive]))
    && seg.size == seg.endExclusive - seg.start && (seg.rollup <==> seg.size >= p.minBurstSize)
  }

  ghost predicate Covered(segs: seq<BurstSegment>, j: nat) {
    exists k :: 0 <= k < |segs| && segs[k].start <= j < segs[k].endExclusive
  }

  /** Every listed burst is a maximal run, and no transient entry from `i` on is outside them. */
  ghost predicate AreTheRuns(entries: seq<Entry>, i: nat, segs: seq<BurstSegment>, p: Policy) {
    && (forall k :: 0 <= k < |segs| ==> IsMaximalRun(entries, segs[k], p))
    && (forall j :: i <= j < |entries| && p.transient(entries[j]) ==> Covered(segs, j))
  }

  lemma OneRunMore(entries: seq<Entry>, i: nat, first: BurstSegment, rest: seq<BurstSegment>, p: Policy)
    requires IsMaximalRun(entries, first, p) && first.start == i && AreTheRuns(entries, first.endExclusive, rest, p)
    ensures AreTheRuns(entries, i, [first] + rest, p)
  {
    var all := [first] + rest;
    forall j | i <= j < |entries| && p.transient(entries[j]) ensures Covered(all, j) {
      if j < first.endExclusive {
        assert all[0] == first;
      } else {
        var k :| 0 <= k < |rest| && rest[k].start <= j < rest[k].endExclusive;
        assert all[k + 1] == rest[k];
      }
    }
  }

  lemma SkipPlain(entries: seq<Entry>, i: nat, segs: seq<BurstSegment>, p: Policy)
    requires i < |entries| && !p.transient(entries[i]) && AreTheRuns(entries, i + 1, segs, p)
    ensures AreTheRuns(entries, i, segs, p)
  {
  }

  lemma RunIsMaximal(entries: seq<Entry>, i: nat, p: Policy)
    requires i < |entries| && p.transient(entries[i]) && (i > 0 ==> !p.transient(entries[i - 1]))
    ensures var e := RunEnd(entries, i + 1, p);
            IsMaximalRun(entries, Burst(i, e - i, p), p) && (e < |entries| ==> !p.transient(entries[e]))
  {
    RunEndFacts(entries, i + 1, p);
  }

  /** The bursts are the maximal runs of transient entries. */
  lemma {:induction false} BurstsAreMaximalRuns(entries: seq<Entry>, i: nat, p: Policy)
    requires i <= |entries| && (0 < i < |entries| && p.transient(entries[i]) ==> !p.transient(entries[i - 1]))
    ensures AreTheRuns(entries, i, Bursts(entries, i, p), p)
    decreases |entries| - i
  {
    hide IsMaximalRun, Covered, RunEnd;
    if i < |entries| {
      hide AreTheRuns;
      if !p.transient(entries[i]) {
        BurstsAreMaximalRuns(entries, i + 1, p);
        SkipPlain(entries, i, Bursts(entries, i + 1, p), p);
      } else {
        var e := RunEnd(entries, i + 1, p);
        RunIsMaximal(entries, i, p);
        BurstsAreMaximalRuns(entries, e, p);
        OneRunMore(entries, i, Burst(i, e - i, p), Bursts(entries, e, p), p);
      }
    }
  }

  function BurstsFrom(entries: seq<Entry>, start: int, i: nat, p: Policy): seq<BurstSegment>
    requires start < i <= |entries| || (start < 0 && i <= |entries|)
  {
    if start < 0 then Bursts(entries, i, p)
    else
      var e := RunEnd(entries, i, p);
      [Burst(start, e - start, p)] + Bursts(entries, e, p)
  }

  method SegmentTransientBursts(entries: seq<Entry>, p: Policy) returns (segments: seq<BurstSegment>)
    ensures segments == Bursts(entries, 0, p)
    ensures AreTheRuns(entries, 0, segments, p)
  {
    hide AreTheRuns;
    BurstsAreMaximalRuns(entries, 0, p);
    segments := [];
    var start := -1;
    for i := 0 to |entries|
      invariant start < i && segments + BurstsFrom(entries, start, i, p) == Bursts(entries, 0, p)
    {
      if p.transient(entries[i]) {
        if start < 0 { start := i; }
      } else if start >= 0 {
        segments := segments + [BurstSegment(start, i, i - start, i - start >= p.minBurstSize)];
        start := -1;
      }
    }
    if start >= 0 {
      segments := segments + [BurstSegment(start, |entries|, |entries| - start, |entries| - start >= p.minBurstSize)];
    }
  }

  // ----- summaries -----

  /** Runs of white space become one space, except at the end, where they are dropped. */
  function Collapse(s: string): string
    decreases |s|
  {
    if s == "" then ""
    else if IsSpace(s[0]) then
      var rest := TrimLeft(s);
      if rest == "" then "" else " " + Collapse(rest)
    else [s[0]] + Collapse(s[1..])
  }

  function FlattenText(s: string): string {
    Collapse(TrimLeft(s))
  }

  function CountTools(entries: seq<Entry>): Ordered<string, nat> {
    if entries == [] then OMap([], map[])
    else
      var last := entries[|entries| - 1].toolName;
      var name := if last.Some? then last.value else "unknown";
      var before := CountTools(entries[..|entries| - 1]);
      before.Set(name, if name in before.vals then before.vals[name] + 1 else 1)
  }

  function FormatCounts(counts: Ordered<string, nat>, k: nat): string
    requires k <= |counts.keys|
  {
    if k == 0 then ""
    else
      FormatCounts(counts, k - 1) + (if k > 1 then ", " else "") +
      counts.keys[k - 1] + "\U{00D7}" + Digits(counts.vals[counts.keys[k - 1]])
  }

  /** The last `tailChars` characters, marked as cut, or all of them; asking for none keeps all. */
  function TailOf(text: string, tailChars: nat): string {
    if |text| > tailChars then "\U{2026}" + (if tailChars == 0 then text else text[|text| - tailChars..]) else text
  }

  function Headline(burst: seq<Entry>): string {
    var counts := CountTools(burst);
    "[oc-session-guard rollup] " + Digits(|burst|) + " transient discovery/inspection tool results (" +
    FormatCounts(counts, |counts.keys|) + ") squashed into this atomic summary at turn end"
  }

  function FormatRollupSummary(burst: seq<Entry>, tailChars: nat): string {
    var tail := if burst == [] then "" else TailOf(FlattenText(burst[|burst| - 1].text), tailChars);
    Headline(burst) + (if tail == "" then "" else "; final result (" + Digits(|tail|) + " chars shown): \"" + tail + "\"")
  }

  function SummaryEntry(burst: seq<Entry>, tailChars: nat): Entry {
    Entry(Some("toolResult"), Some(ROLLUP_TOOL_NAME), FormatRollupSummary(burst, tailChars) + "\n")
  }

  function Configured(tools: seq<string>, minBurstSize: int, tailChars: nat): Policy {
    Policy((e: Entry) => IsToolResult(e) && IsTransientTool(e.toolName, tools), minBurstSize,
           (burst: seq<Entry>) => SummaryEntry(burst, tailChars))
  }

  // ----- the transformation -----

  /** A burst in the output: its summary or, when it is too short, its entries. */
  function Squash(burst: seq<Entry>, p: Policy): seq<Entry> {
    if |burst| >= p.minBurstSize then [p.summary(burst)] else burst
  }

  /** What rollup means from position `i` on: each maximal transient run that is long enough becomes one
      summary. */
  function Rolled(entries: seq<Entry>, i: nat, p: Policy): seq<Entry>
    requires i <= |entries|
    decreases |entries| - i
  {
    if i == |entries| then []
    else if !p.transient(entries[i]) then [entries[i]] + Rolled(entries, i + 1, p)
    else
      var e := RunEnd(entries, i + 1, p);
      Squash(entries[i..e], p) + Rolled(entries, e, p)
  }

  function Chars(entries: seq<Entry>): nat {
    if entries == [] then 0 else Chars(entries[..|entries| - 1]) + |entries[|entries| - 1].text|
  }

  datatype RollupReport = RollupReport(
    changed: bool, burstsRolled: nat, entriesRemoved: nat, charsBefore: nat, charsAfter: nat, summaries: seq<Entry>)

  method TotalChars(entries: seq<Entry>) returns (n: nat)
    ensures n == Chars(entries)
  {
    n := 0;
    for i := 0 to |entries|
      invariant n == Chars(entries[..i])
    {
      assert entries[..i + 1][..i] == entries[..i];
      n := n + |entries[i].text|;
    }
    assert entries[..|entries|] == entries;
  }

  /** The first transient entry from `i` on. */
  function FirstTransient(entries: seq<Entry>, i: nat, p: Policy): (b: nat)
    requires i <= |entries|
    ensures i <= b <= |entries| && (b < |entries| ==> p.transient(entries[b]))
    decreases |entries| - i
  {
    if i == |entries| || p.transient(entries[i]) then i else FirstTransient(entries, i + 1, p)
  }

  lemma {:induction false} BurstsStart(entries: seq<Entry>, i: nat, p: Policy)
    requires i <= |entries|
    ensures Bursts(entries, i, p) == Bursts(entries, FirstTransient(entries, i, p), p)
    decreases |entries| - i
  {
    if i < |entries| && !p.transient(entries[i]) { BurstsStart(entries, i + 1, p); }
  }

  lemma {:induction false} RolledStart(entries: seq<Entry>, i: nat, p: Policy)
    requires i <= |entries|
    ensures var b := FirstTransient(entries, i, p); Rolled(entries, i, p) == entries[i..b] + Rolled(entries, b, p)
    decreases |entries| - i
  {
    hide Squash;
    if i < |entries| && !p.transient(entries[i]) {
      RolledStart(entries, i + 1, p);
      assert entries[i..FirstTransient(entries, i, p)] == [entries[i]] + entries[i + 1..FirstTransient(entries, i, p)];
    }
  }

  lemma BurstAt(entries: seq<Entry>, i: nat, b: nat, e: nat, p: Policy)
    requires i <= |entries| && b == FirstTransient(entries, i, p) < |entries| && e == RunEnd(entries, b + 1, p)
    ensures Bursts(entries, i, p) == [Burst(b, e - b, p)] + Bursts(entries, e, p)
  {
    BurstsStart(entries, i, p);
  }

  /** The entries up to the next burst stay, the burst is squashed. */
  lemma RolledAt(entries: seq<Entry>, i: nat, b: nat, e: nat, p: Policy)
    requires i <= |entries| && b == FirstTransient(entries, i, p) < |entries| && e == RunEnd(entries, b + 1, p)
    ensures Rolled(entries, i, p) == entries[i..b] + (Squash(entries[b..e], p) + Rolled(entries, e, p))
  {
    RolledStart(entries, i, p);
  }

  lemma Uncons<T>(s: seq<T>, x: T, rest: seq<T>)
    requires s == [x] + rest
    ensures s[0] == x && s[1..] == rest
  {
  }

  lemma NoMoreBursts(entries: seq<Entry>, i: nat, p: Policy)
    requires i <= |entries| && Bursts(entries, i, p) == []
    ensures Rolled(entries, i, p) == entries[i..]
  {
    var b := FirstTransient(entries, i, p);
    if b < |entries| { BurstAt(entries, i, b, RunEnd(entries, b + 1, p), p); }
    RolledStart(entries, i, p);
    assert entries[i..|entries|] + [] == entries[i..];
  }

  /** The invariant of the rollup loop: everything up to `cursor` is in `out`, everything up to `pos` is
      decided. */
  ghost predicate Rolling(entries: seq<Entry>, out: seq<Entry>, cursor: nat, pos: nat, p: Policy) {
    cursor <= pos <= |entries| && out + (entries[cursor..pos] + Rolled(entries, pos, p)) == Rolled(entries, 0, p)
  }

  lemma Associate<T>(a: seq<T>, b: seq<T>, c: seq<T>)
    ensures a + b + c == a + (b + c)
  {
  }

  lemma RollingTo(entries: seq<Entry>, out: seq<Entry>, cursor: nat, pos: nat, b: nat, e: nat, p: Policy)
    requires Rolling(entries, out, cursor, pos, p) && pos <= b <= e <= |entries|
    requires Rolled(entries, pos, p) == entries[pos..b] + (Squash(entries[b..e], p) + Rolled(entries, e, p))
    ensures Rolled(entries, 0, p) == out + (entries[cursor..b] + (Squash(entries[b..e], p) + Rolled(entries, e, p)))
  {
    hide Squash, Rolled;
    Associate(entries[cursor..pos], entries[pos..b], Squash(entries[b..e], p) + Rolled(entries, e, p));
    assert entries[cursor..pos] + entries[pos..b] == entries[cursor..b];
  }

  lemma RollingSquash(entries: seq<Entry>, out: seq<Entry>, cursor: nat, b: nat, e: nat, p: Policy)
    requires cursor <= b <= e <= |entries| && e - b >= p.minBurstSize
    requires Rolled(entries, 0, p) == out + (entries[cursor..b] + (Squash(entries[b..e], p) + Rolled(entries, e, p)))
    ensures Rolling(entries, out + entries[cursor..b] + [p.summary(entries[b..e])], e, e, p)
  {
    var kept, s, rest := entries[cursor..b], [p.summary(entries[b..e])], Rolled(entries, e, p);
    Associate(out, kept, s + rest);
    Associate(out + kept, s, rest);
    assert entries[e..e] + rest == rest;
  }

  lemma RollingKeep(entries: seq<Entry>, out: seq<Entry>, cursor: nat, b: nat, e: nat, p: Policy)
    requires cursor <= b <= e <= |entries| && e - b < p.minBurstSize
    requires Rolled(entries, 0, p) == out + (entries[cursor..b] + (Squash(entries[b..e], p) + Rolled(entries, e, p)))
    ensures Rolling(entries, out, cursor, e, p)
  {
    Associate(entries[cursor..b], entries[b..e], Rolled(entries, e, p));
    assert entries[cursor..b] + entries[b..e] == entries[cursor..e];
  }

  lemma SomeBurst(entries: seq<Entry>, pos: nat, p: Policy)
    requires pos <= |entries| && Bursts(entries, pos, p) != []
    ensures FirstTransient(entries, pos, p) < |entries|
  {
    BurstsStart(entries, pos, p);
  }

  /** One round of the loop. */
  lemma RollingStep(entries: seq<Entry>, out: seq<Entry>, cursor: nat, pos: nat, seg: BurstSegment, rest: seq<BurstSegment>, p: Policy)
    requires Rolling(entries, out, cursor, pos, p) && Bursts(entries, pos, p) == [seg] + rest
    ensures cursor <= seg.start < seg.endExclusive <= |entries| && rest == Bursts(entries, seg.endExclusive, p)
    ensures seg == Burst(seg.start, seg.endExclusive - seg.start, p)
    ensures if seg.rollup
            then Rolling(entries, out + entries[cursor..seg.start] + [p.summary(entries[seg.start..seg.endExclusive])],
                         seg.endExclusive, seg.endExclusive, p)
            else Rolling(entries, out, cursor, seg.endExclusive, p)
  {
    hide Rolled, Bursts;
    var b := FirstTransient(entries, pos, p);
    SomeBurst(entries, pos, p);
    var e := RunEnd(entries, b + 1, p);
    BurstAt(entries, pos, b, e, p);
    Uncons([seg] + rest, Burst(b, e - b, p), Bursts(entries, e, p));
    RolledAt(entries, pos, b, e, p);
    RollingTo(entries, out, cursor, pos, b, e, p);
    if seg.rollup { RollingSquash(entries, out, cursor, b, e, p); } else { RollingKeep(entries, out, cursor, b, e, p); }
  }

  ghost predicate Within(entries: seq<Entry>, segs: seq<BurstSegment>) {
    forall i :: 0 <= i < |segs| ==> segs[i].start <= segs[i].endExclusive <= |entries|
  }

  lemma {:induction false} BurstsWithin(entries: seq<Entry>, i: nat, p: Policy)
    requires i <= |entries|
    ensures Within(entries, Bursts(entries, i, p))
    decreases |entries| - i
  {
    if i < |entries| {
      if p.transient(entries[i]) { BurstsWithin(entries, RunEnd(entries, i + 1, p), p); } else { BurstsWithin(entries, i + 1, p); }
    }
  }

  /** The summaries of the qualifying bursts, in order. */
  ghost function Summaries(entries: seq<Entry>, segs: seq<BurstSegment>, p: Policy): seq<Entry>
    requires Within(entries, segs)
  {
    if segs == [] then []
    else
      var before, last := Summaries(entries, segs[..|segs| - 1], p), segs[|segs| - 1];
      if last.rollup then before + [p.summary(entries[last.start..last.endExclusive])] else before
  }

  lemma SummariesStep(entries: seq<Entry>, segs: seq<BurstSegment>, j: nat, p: Policy)
    requires Within(entries, segs) && j < |segs|
    ensures Summaries(entries, segs[..j + 1], p) ==
            if segs[j].rollup then Summaries(entries, segs[..j], p) + [p.summary(entries[segs[j].start..segs[j].endExclusive])]
            else Summaries(entries, segs[..j], p)
  {
    assert segs[..j + 1][..j] == segs[..j];
  }

  ghost function SummariesOf(entries: seq<Entry>, p: Policy): seq<Entry> {
    BurstsWithin(entries, 0, p);
    Summaries(entries, Bursts(entries, 0, p), p)
  }

  method RollupTransientSteps(entries: seq<Entry>, p: Policy) returns (out: seq<Entry>, report: RollupReport)
    ensures out == Rolled(entries, 0, p)
    ensures |out| == |entries| - report.entriesRemoved
    ensures report.changed <==> |out| < |entries|
    ensures report.summaries == SummariesOf(entries, p) && report.burstsRolled == |report.summaries|
    ensures report.charsBefore == Chars(entries) && report.charsAfter == Chars(out)
  {
    hide Bursts, Rolled, AreTheRuns, IsMaximalRun, Covered;
    var segments := SegmentTransientBursts(entries, p);
    var charsBefore := TotalChars(entries);
    out := [];
    var summaries: seq<Entry> := [];
    var removed: nat := 0;
    var cursor: nat := 0;
    ghost var pos: nat := 0;
    BurstsWithin(entries, 0, p);
    for j := 0 to |segments|
      invariant summaries == Summaries(entries, segments[..j], p)
      invariant pos <= |entries| && segments[j..] == Bursts(entries, pos, p)
      invariant Rolling(entries, out, cursor, pos, p)
      invariant |out| + removed == cursor
    {
      var seg := segments[j];
      SummariesStep(entries, segments, j, p);
      assert segments[j..] == [seg] + segments[j + 1..];
      RollingStep(entries, out, cursor, pos, seg, segments[j + 1..], p);
      if seg.rollup {
        var burst := entries[seg.start..seg.endExclusive];
        summaries := summaries + [p.summary(burst)];
        out := out + entries[cursor..seg.start] + [p.summary(burst)];
        removed := removed + |burst| - 1;
        cursor := seg.endExclusive;
      }
      pos := seg.endExclusive;
    }
    assert segments[..|segments|] == segments;
    NoMoreBursts(entries, pos, p);
    assert entries[cursor..pos] + entries[pos..] == entries[cursor..];
    out := out + entries[cursor..];
    var charsAfter := TotalChars(out);
    report := RollupReport(removed > 0, |summaries|, removed, charsBefore, charsAfter, summaries);
  }

  // ----- idempotence -----

  lemma {:induction false} RunEndIs(entries: seq<Entry>, i: nat, e: nat, p: Policy)
    requires i <= e <= |entries| && (forall j :: i <= j < e ==> p.transient(entries[j]))
    requires e < |entries| ==> !p.transient(entries[e])
    ensures RunEnd(entries, i, p) == e
    decreases e - i
  {
    if i < e { RunEndIs(entries, i + 1, e, p); }
  }

  lemma {:induction false} RunEndFacts(entries: seq<Entry>, i: nat, p: Policy)
    requires i <= |entries|
    ensures forall j :: i <= j < RunEnd(entries, i, p) ==> p.transient(entries[j])
    ensures RunEnd(entries, i, p) < |entries| ==> !p.transient(entries[RunEnd(entries, i, p)])
    decreases |entries| - i
  {
    if i < |entries| && p.transient(entries[i]) { RunEndFacts(entries, i + 1, p); }
  }

  lemma SplitTail<T>(all: seq<T>, d: nat, a: seq<T>, b: seq<T>)
    requires d <= |all| && all[d..] == a + b
    ensures d + |a| <= |all| && all[d..d + |a|] == a && all[d + |a|..] == b
  {
    assert all[d..][..|a|] == a && all[d..][|a|..] == b;
    assert all[d..d + |a|] == all[d..][..|a|] && all[d + |a|..] == all[d..][|a|..];
  }

  /** A summary on its own is no burst that would be squashed again. */
  ghost predicate LoneSummaryStays(p: Policy) {
    p.minBurstSize >= 2 || forall burst :: !p.transient(p.summary(burst))
  }

  lemma RolledHead(entries: seq<Entry>, i: nat, p: Policy)
    requires i < |entries| && !p.transient(entries[i])
    ensures Rolled(entries, i, p) != [] && Rolled(entries, i, p)[0] == entries[i]
  {
  }

  /** A burst of the input, squashed at `d` in `all` and followed by the stable output for what comes after it. */
  lemma BurstIsStable(entries: seq<Entry>, all: seq<Entry>, d: nat, i: nat, p: Policy)
    requires LoneSummaryStays(p)
    requires i < |entries| && p.transient(entries[i])
    requires var e := RunEnd(entries, i + 1, p); var k := d + |Squash(entries[i..e], p)|;
             k <= |all| && all[d..k] == Squash(entries[i..e], p) && all[k..] == Rolled(entries, e, p) == Rolled(all, k, p)
    ensures var e := RunEnd(entries, i + 1, p); Rolled(all, d, p) == Squash(entries[i..e], p) + Rolled(entries, e, p)
  {
    hide LoneSummaryStays, Squash;
    var e := RunEnd(entries, i + 1, p);
    RunEndFacts(entries, i + 1, p);
    if e < |entries| { RolledHead(entries, e, p); }
    StableRun(entries[i..e], all, d, Rolled(entries, e, p), p);
  }

  /** Wherever a transcript's tail is the output for the entries from `i` on, rolling it up again leaves it
      as it is. */
  lemma {:induction false} RolledIsStable(entries: seq<Entry>, all: seq<Entry>, d: nat, i: nat, p: Policy)
    requires LoneSummaryStays(p)
    requires i <= |entries| && d <= |all| && all[d..] == Rolled(entries, i, p)
    ensures Rolled(all, d, p) == Rolled(entries, i, p)
    decreases |entries| - i
  {
    hide LoneSummaryStays, Squash;
    if i < |entries| {
      if p.transient(entries[i]) {
        var e := RunEnd(entries, i + 1, p);
        var kept, rest := Squash(entries[i..e], p), Rolled(entries, e, p);
        SplitTail(all, d, kept, rest);
        RolledIsStable(entries, all, d + |kept|, e, p);
        BurstIsStable(entries, all, d, i, p);
      } else {
        SplitTail(all, d, [entries[i]], Rolled(entries, i + 1, p));
        RolledIsStable(entries, all, d + 1, i + 1, p);
      }
    }
  }

  /** One burst of the output, at `d` in the whole output `all`, followed by output that does not start with
      a transient entry. */
  lemma StableRun(burst: seq<Entry>, all: seq<Entry>, d: nat, rest: seq<Entry>, p: Policy)
    requires LoneSummaryStays(p)
    requires burst != [] && forall x :: x in burst ==> p.transient(x)
    requires d + |Squash(burst, p)| <= |all| && all[d..d + |Squash(burst, p)|] == Squash(burst, p)
    requires d + |Squash(burst, p)| < |all| ==> !p.transient(all[d + |Squash(burst, p)|])
    requires Rolled(all, d + |Squash(burst, p)|, p) == rest
    ensures Rolled(all, d, p) == Squash(burst, p) + rest
  {
    var kept, k := Squash(burst, p), |Squash(burst, p)|;
    assert all[d] == kept[0];
    if p.transient(kept[0]) {
      forall j | d <= j < d + k ensures p.transient(all[j]) { assert all[j] == kept[j - d]; }
      RunEndIs(all, d + 1, d + k, p);
    }
  }

  ghost predicate AlwaysIdempotent(p: Policy) {
    forall entries :: Rolled(Rolled(entries, 0, p), 0, p) == Rolled(entries, 0, p)
  }

  /** Idempotence holds for every transcript exactly when a lone summary is not a burst: the minimum is at
      least two or summaries are not transient. */
  lemma IdempotentIff(tools: seq<string>, minBurstSize: int, tailChars: nat)
    ensures AlwaysIdempotent(Configured(tools, minBurstSize, tailChars)) <==> minBurstSize >= 2 || ROLLUP_TOOL_NAME !in tools
  {
    var p := Configured(tools, minBurstSize, tailChars);
    if minBurstSize >= 2 || ROLLUP_TOOL_NAME !in tools {
      assert ROLLUP_TOOL_NAME !in tools ==> forall burst :: !p.transient(p.summary(burst));
      forall entries ensures Rolled(Rolled(entries, 0, p), 0, p) == Rolled(entries, 0, p) {
        var once := Rolled(entries, 0, p);
        assert once[0..] == once;
        RolledIsStable(entries, once, 0, 0, p);
      }
    } else {
      SummaryOfSummaryDiffers(Entry(Some("toolResult"), Some(ROLLUP_TOOL_NAME), ""), tools, minBurstSize, tailChars);
    }
  }

  lemma RollOne(e: Entry, p: Policy)
    requires p.transient(e) && p.minBurstSize <= 1
    ensures Rolled([e], 0, p) == [p.summary([e])]
  {
    assert RunEnd([e], 1, p) == 1;
    assert [e][0..1] == [e];
  }

  lemma SameHeadline(e: Entry, s: Entry)
    requires e.toolName == s.toolName
    ensures Headline([e]) == Headline([s])
  {
    assert [e][..0] == [] && [s][..0] == [];
    assert CountTools([e][..0]) == CountTools([s][..0]);
  }

  lemma TextSurvivesFlattening(text: string)
    requires text != "" && !IsSpace(text[0])
    ensures FlattenText(text) != ""
  {
  }

  lemma LongerSummary(e: Entry, s: Entry, tailChars: nat)
    requires e.toolName == s.toolName && e.text == "" && s.text != "" && !IsSpace(s.text[0])
    ensures FormatRollupSummary([s], tailChars) != FormatRollupSummary([e], tailChars)
  {
    SameHeadline(e, s);
    TextSurvivesFlattening(s.text);
    assert |TailOf(FlattenText(s.text), tailChars)| > 0;
    assert |FormatRollupSummary([s], tailChars)| > |FormatRollupSummary([e], tailChars)|;
  }

  lemma SummaryStarts(burst: seq<Entry>, tailChars: nat)
    ensures FormatRollupSummary(burst, tailChars) != "" && FormatRollupSummary(burst, tailChars)[0] == '['
  {
  }

  /** A summary of an empty result quotes nothing; a summary of that summary quotes it. */
  lemma SummaryOfSummaryDiffers(e: Entry, tools: seq<string>, minBurstSize: int, tailChars: nat)
    requires minBurstSize <= 1 && ROLLUP_TOOL_NAME in tools
    requires e == Entry(Some("toolResult"), Some(ROLLUP_TOOL_NAME), "")
    ensures var p := Configured(tools, minBurstSize, tailChars); Rolled(Rolled([e], 0, p), 0, p) != Rolled([e], 0, p)
  {
    var p := Configured(tools, minBurstSize, tailChars);
    var s := SummaryEntry([e], tailChars);
    RollOne(e, p);
    RollOne(s, p);
    SummaryStarts([e], tailChars);
    LongerSummary(e, s, tailChars);
    var once, twice := FormatRollupSummary([e], tailChars), FormatRollupSummary([s], tailChars);
    assert (once + "\n")[..|once|] == once && (twice + "\n")[..|twice|] == twice;
  }

  // ----- the tracker -----

  datatype Tracker = Tracker(
    currentBurst: nat, largestBurst: nat, totalTransient: nat, closedBursts: nat, qualifyingBurstSizes: seq<nat>)

  const NEW_TRACKER := Tracker(0, 0, 0, 0, [])

  function Max(a: nat, b: nat): nat {
    if a >= b then a else b
  }

  /** One tool result, transient or not. */
  function Record(t: Tracker, transient: bool, minBurstSize: int): Tracker {
    if transient then
      t.(currentBurst := t.currentBurst + 1, largestBurst := Max(t.largestBurst, t.currentBurst + 1),
         totalTransient := t.totalTransient + 1)
    else if t.currentBurst == 0 then t
    else
      t.(currentBurst := 0, closedBursts := t.closedBursts + 1,
         qualifyingBurstSizes := if t.currentBurst >= minBurstSize then t.qualifyingBurstSizes + [t.currentBurst]
                                 else t.qualifyingBurstSizes)
  }

  function RecordToolResultForRollup(t: Tracker, toolName: Option<string>, tools: seq<string>, minBurstSize: int): Tracker {
    Record(t, IsTransientTool(toolName, tools), minBurstSize)
  }

  datatype TurnReport = TurnReport(
    shouldRollup: bool, largestBurst: nat, totalTransient: nat, totalBursts: nat, qualifyingBurstSizes: seq<nat>)

  function FinalizeTurnRollup(t: Tracker, minBurstSize: int): TurnReport {
    var sizes := if t.currentBurst >= minBurstSize then t.qualifyingBurstSizes + [t.currentBurst] else t.qualifyingBurstSizes;
    TurnReport(|sizes| > 0, Max(t.largestBurst, t.currentBurst), t.totalTransient,
               t.closedBursts + (if t.currentBurst > 0 then 1 else 0), sizes)
  }

  /** Records the tool results from position `i` on, one by one. */
  function RecordAll(t: Tracker, entries: seq<Entry>, i: nat, tools: seq<string>, minBurstSize: int): Tracker
    requires i <= |entries|
    decreases |entries| - i
  {
    if i == |entries| then t
    else RecordAll(RecordToolResultForRollup(t, entries[i].toolName, tools, minBurstSize), entries, i + 1, tools, minBurstSize)
  }

  function LargestOf(segs: seq<BurstSegment>): nat {
    if segs == [] then 0 else Max(segs[0].size, LargestOf(segs[1..]))
  }

  function TotalOf(segs: seq<BurstSegment>): nat {
    if segs == [] then 0 else segs[0].size + TotalOf(segs[1..])
  }

  function QualifyingOf(segs: seq<BurstSegment>): seq<nat> {
    if segs == [] then []
    else if segs[0].rollup then [segs[0].size] + QualifyingOf(segs[1..])
    else QualifyingOf(segs[1..])
  }

  /** The same report, read off the bursts of the whole transcript. */
  function BatchReport(segs: seq<BurstSegment>): TurnReport {
    var sizes := QualifyingOf(segs);
    TurnReport(|sizes| > 0, LargestOf(segs), TotalOf(segs), |segs|, sizes)
  }

  /** The report still to come: what the tracker has finished, and the bursts ahead. */
  ghost predicate Foretells(t: Tracker, segs: seq<BurstSegment>, r: TurnReport) {
    && r.qualifyingBurstSizes == t.qualifyingBurstSizes + QualifyingOf(segs)
    && r.shouldRollup == (|r.qualifyingBurstSizes| > 0)
    && r.largestBurst == Max(t.largestBurst, LargestOf(segs))
    && r.totalTransient + t.currentBurst == t.totalTransient + TotalOf(segs)
    && r.totalBursts == t.closedBursts + |segs|
  }

  ghost predicate AllToolResults(entries: seq<Entry>) {
    forall e :: e in entries ==> IsToolResult(e)
  }

  /** The same fold, told only which entries are transient. */
  function Folded(t: Tracker, entries: seq<Entry>, i: nat, p: Policy): Tracker
    requires i <= |entries|
    decreases |entries| - i
  {
    if i == |entries| then t else Folded(Record(t, p.transient(entries[i]), p.minBurstSize), entries, i + 1, p)
  }

  lemma {:induction false} RecordAllFolds(t: Tracker, entries: seq<Entry>, i: nat, tools: seq<string>, minBurstSize: int, tailChars: nat)
    requires i <= |entries| && AllToolResults(entries)
    ensures RecordAll(t, entries, i, tools, minBurstSize) == Folded(t, entries, i, Configured(tools, minBurstSize, tailChars))
    decreases |entries| - i
  {
    if i < |entries| {
      assert entries[i] in entries;
      RecordAllFolds(RecordToolResultForRollup(t, entries[i].toolName, tools, minBurstSize), entries, i + 1, tools, minBurstSize, tailChars);
    }
  }

  lemma StillOpen(t: Tracker, segs: seq<BurstSegment>, r: TurnReport, minBurstSize: int)
    requires segs != [] && segs[0].size > t.currentBurst && Foretells(Record(t, true, minBurstSize), segs, r)
    ensures Foretells(t, segs, r)
  {
  }

  lemma JustClosed(t: Tracker, closed: BurstSegment, later: seq<BurstSegment>, r: TurnReport, minBurstSize: int)
    requires 0 < t.currentBurst == closed.size <= t.largestBurst && closed.rollup == (closed.size >= minBurstSize)
    requires Foretells(Record(t, false, minBurstSize), later, r)
    ensures Foretells(t, [closed] + later, r)
  {
    Uncons([closed] + later, closed, later);
    assert closed.rollup ==> QualifyingOf([closed] + later) == [closed.size] + QualifyingOf(later);
  }

  lemma AtTheEnd(t: Tracker, entries: seq<Entry>, p: Policy)
    requires p.minBurstSize >= 1 && t.currentBurst <= t.largestBurst && t.currentBurst <= |entries|
    ensures Foretells(t, BurstsFrom(entries, OpenAt(t, |entries|), |entries|, p), FinalizeTurnRollup(t, p.minBurstSize))
  {
    if t.currentBurst > 0 {
      var open := Burst(|entries| - t.currentBurst, t.currentBurst, p);
      assert BurstsFrom(entries, |entries| - t.currentBurst, |entries|, p) == [open];
      assert QualifyingOf([open]) == if open.rollup then [open.size] else [];
    }
  }

  /** Where the tracker's open burst started, when it has seen `i` entries; -1 if none is open. */
  function OpenAt(t: Tracker, i: nat): int {
    if t.currentBurst == 0 then -1 else i - t.currentBurst
  }

  lemma {:induction false} TrackerForetells(t: Tracker, entries: seq<Entry>, i: nat, p: Policy)
    requires p.minBurstSize >= 1 && t.currentBurst <= t.largestBurst && t.currentBurst <= i <= |entries|
    ensures Foretells(t, BurstsFrom(entries, OpenAt(t, i), i, p), FinalizeTurnRollup(Folded(t, entries, i, p), p.minBurstSize))
    decreases |entries| - i
  {
    hide Foretells, FinalizeTurnRollup;
    if i == |entries| {
      AtTheEnd(t, entries, p);
    } else {
      var t' := Record(t, p.transient(entries[i]), p.minBurstSize);
      var r := FinalizeTurnRollup(Folded(t, entries, i, p), p.minBurstSize);
      TrackerForetells(t', entries, i + 1, p);
      if p.transient(entries[i]) {
        StillOpen(t, BurstsFrom(entries, OpenAt(t, i), i, p), r, p.minBurstSize);
      } else if t.currentBurst > 0 {
        JustClosed(t, Burst(i - t.currentBurst, t.currentBurst, p), Bursts(entries, i + 1, p), r, p.minBurstSize);
      }
    }
  }

  /** Recording tool results one by one and finalizing gives the report of the whole transcript's bursts, for
      every sequence of tool results, exactly when the minimum burst size is at least one; with less, the
      end of a turn reports an empty burst. */
  lemma OnlineIsBatchIff(tools: seq<string>, minBurstSize: int, tailChars: nat)
    ensures (forall entries :: AllToolResults(entries) ==>
               FinalizeTurnRollup(RecordAll(NEW_TRACKER, entries, 0, tools, minBurstSize), minBurstSize) ==
               BatchReport(Bursts(entries, 0, Configured(tools, minBurstSize, tailChars))))
       <==> minBurstSize >= 1
  {
    var p := Configured(tools, minBurstSize, tailChars);
    if minBurstSize >= 1 {
      forall entries | AllToolResults(entries)
        ensures FinalizeTurnRollup(RecordAll(NEW_TRACKER, entries, 0, tools, minBurstSize), minBurstSize) == BatchReport(Bursts(entries, 0, p))
      {
        RecordAllFolds(NEW_TRACKER, entries, 0, tools, minBurstSize, tailChars);
        TrackerForetells(NEW_TRACKER, entries, 0, p);
      }
    } else {
      assert AllToolResults([]) && Bursts([], 0, p) == [];
      assert FinalizeTurnRollup(RecordAll(NEW_TRACKER, [], 0, tools, minBurstSize), minBurstSize).qualifyingBurstSizes == [0];
    }
  }

  // ----- what a summary tells -----

  function NameOf(e: Entry): string {
    if e.toolName.Some? then e.toolName.value else "unknown"
  }

  function Names(entries: seq<Entry>): seq<string> {
    if entries == [] then [] else Names(entries[..|entries| - 1]) + [NameOf(entries[|entries| - 1])]
  }

  lemma CountName(names: seq<string>, last: string, name: string)
    ensures multiset(names + [last])[name] == multiset(names)[name] + (if name == last then 1 else 0)
  {
  }

  /** The summary's counts are the numbers of results of each tool. */
  lemma {:induction false} CountsAreNumbers(entries: seq<Entry>, name: string)
    ensures var counts := CountTools(entries);
            && (name in counts.vals <==> name in Names(entries))
            && (name in counts.vals ==> counts.vals[name] == multiset(Names(entries))[name])
  {
    if entries != [] {
      var n := |entries| - 1;
      CountsAreNumbers(entries[..n], name);
      CountsAreNumbers(entries[..n], NameOf(entries[n]));
      CountName(Names(entries[..n]), NameOf(entries[n]), name);
    }
  }

  /** The tail is the text itself when it is short, and otherwise a mark and its last characters, or all of them when none
      are asked for. */
  lemma TailIsEnd(text: string, tailChars: nat)
    ensures var t := TailOf(text, tailChars);
            if |text| <= tailChars then t == text
            else if tailChars == 0 then t != [] && t[1..] == text
            else |t| == tailChars + 1 && t[0] == '\U{2026}' && t[1..] == text[|text| - tailChars..]
  {
  }

  /** The characters of a text that are no white space. */
  function Ink(s: string): string {
    if s == "" then "" else if IsSpace(s[0]) then Ink(s[1..]) else [s[0]] + Ink(s[1..])
  }

  lemma {:induction false} TrimKeepsInk(s: string)
    ensures Ink(TrimLeft(s)) == Ink(s)
  {
    if s != "" && IsSpace(s[0]) { TrimKeepsInk(s[1..]); }
  }

  /** White space stands alone, as a single blank between two other characters. */
  ghost predicate OneLine(s: string) {
    forall i :: 0 <= i < |s| && IsSpace(s[i]) ==> s[i] == ' ' && 0 < i < |s| - 1 && !IsSpace(s[i - 1]) && !IsSpace(s[i + 1])
  }

  lemma OneLineAfter(c: char, rest: string)
    requires OneLine(rest) && !IsSpace(c)
    ensures OneLine([c] + rest)
  {
    var s := [c] + rest;
    forall i | 0 <= i < |s| && IsSpace(s[i]) ensures s[i] == ' ' && 0 < i < |s| - 1 && !IsSpace(s[i - 1]) && !IsSpace(s[i + 1]) {
      assert s[i] == rest[i - 1] && IsSpace(rest[i - 1]);
      assert s[i - 1] == rest[i - 2] && s[i + 1] == rest[i];
    }
  }

  lemma OneLineAfterBlank(c: char, rest: string)
    requires OneLine(rest) && rest != "" && !IsSpace(rest[0]) && !IsSpace(c)
    ensures OneLine([c] + (" " + rest))
  {
    var s := [c] + (" " + rest);
    forall i | 0 <= i < |s| && IsSpace(s[i]) ensures s[i] == ' ' && 0 < i < |s| - 1 && !IsSpace(s[i - 1]) && !IsSpace(s[i + 1]) {
      if i == 1 {
        assert s[2] == rest[0];
      } else {
        assert s[i] == rest[i - 2] && IsSpace(rest[i - 2]);
        assert s[i - 1] == rest[i - 3] && s[i + 1] == rest[i - 1];
      }
    }
  }

  lemma {:induction false} CollapseFacts(s: string)
    requires s != "" ==> !IsSpace(s[0])
    ensures OneLine(Collapse(s)) && Ink(Collapse(s)) == Ink(s)
    ensures s != "" ==> Collapse(s) != "" && Collapse(s)[0] == s[0]
    decreases |s|
  {
    if s != "" {
      var c, more := s[0], s[1..];
      var rest := TrimLeft(more);
      TrimKeepsInk(more);
      TrimLeftFacts(more);
      if more == "" || !IsSpace(more[0]) {
        CollapseFacts(more);
        OneLineAfter(c, Collapse(more));
        assert ([c] + Collapse(more))[1..] == Collapse(more);
      } else {
        CollapseFacts(rest);
        if rest == "" {
          assert Collapse(more) == "";
          assert [c] + "" == [c];
        } else {
          assert Collapse(more) == " " + Collapse(rest);
          OneLineAfterBlank(c, Collapse(rest));
          assert ([c] + (" " + Collapse(rest)))[1..] == " " + Collapse(rest) && (" " + Collapse(rest))[1..] == Collapse(rest);
        }
      }
    }
  }

  /** Flattening puts a text on one line: its characters other than white space stay, in order, and of the white space
      only single blanks between them. */
  lemma FlatteningKeepsInk(s: string)
    ensures OneLine(FlattenText(s)) && Ink(FlattenText(s)) == Ink(s)
  {
    TrimKeepsInk(s);
    TrimLeftFacts(s);
    CollapseFacts(TrimLeft(s));
  }

  lemma OneDigit(n: nat)
    requires n < 10
    ensures Digits(n) == ["0123456789"[n]]
  {
  }

  lemma TwoTools(a: Entry, b: Entry, c: Entry)
    requires a.toolName == Some("exec") && b.toolName == Some("read") && c.toolName == Some("exec")
    ensures CountTools([a, b, c]) == OMap(["exec", "read"], map["exec" := 2, "read" := 1])
  {
    assert [a, b, c][..2] == [a, b] && [a, b][..1] == [a] && [a][..0] == [];
    assert CountTools([a]) == OMap([] + ["exec"], map["exec" := 1]);
    assert CountTools([a, b]) == OMap(["exec"] + ["read"], map["exec" := 1, "read" := 1]);
  }

  lemma TwoCounts(counts: Ordered<string, nat>)
    requires counts == OMap(["exec", "read"], map["exec" := 2, "read" := 1])
    ensures FormatCounts(counts, 2) == "exec\U{00D7}2, read\U{00D7}1"
  {
    OneDigit(1);
    OneDigit(2);
    assert FormatCounts(counts, 0) == "";
    assert FormatCounts(counts, 1) == "exec" + "\U{00D7}" + "2";
  }

  lemma FlattenExample()
    ensures FlattenText(" x \n y") == "x y"
  {
    assert " x \n y"[1..] == "x \n y" && "x \n y"[1..] == " \n y" && " \n y"[1..] == "\n y" && "\n y"[1..] == " y" && " y"[1..] == "y" && "y"[1..] == "";
    assert TrimLeft("y") == "y" && TrimLeft(" y") == "y" && TrimLeft("\n y") == "y" && TrimLeft(" \n y") == "y";
    assert Collapse("y") == "y" && Collapse(" \n y") == " " + "y";
  }

  /** A summary in full: how many results, of which tools, and the end of the last one on one line. */
  lemma SummaryExample(a: Entry, b: Entry, c: Entry)
    requires a.toolName == Some("exec") && b.toolName == Some("read") && c.toolName == Some("exec") && c.text == " x \n y"
    ensures FormatRollupSummary([a, b, c], 400) ==
            ("[oc-session-guard rollup] " + "3" + " transient discovery/inspection tool results (" +
             "exec\U{00D7}2, read\U{00D7}1" + ") squashed into this atomic summary at turn end") +
            ("; final result (" + "3" + " chars shown): \"" + "x y" + "\"")
  {
    hide FlattenText, CountTools, FormatCounts, Digits;
    TwoTools(a, b, c);
    TwoCounts(CountTools([a, b, c]));
    FlattenExample();
    OneDigit(3);
  }

  lemma {:induction false} CharsAddUp(a: seq<Entry>, b: seq<Entry>)
    ensures Chars(a + b) == Chars(a) + Chars(b)
  {
    if b == [] {
      assert a + b == a;
    } else {
      var n := |b| - 1;
      assert (a + b)[..|a + b| - 1] == a + b[..n];
      CharsAddUp(a, b[..n]);
    }
  }

  lemma CharsOfOne(e: Entry)
    ensures Chars([e]) == |e.text| && Chars([]) == 0
  {
    assert [e][..0] == [];
  }
}
