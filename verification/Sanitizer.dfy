/** Cleaning a stored transcript: runs of polls and of repeated errors keep their first entry, long tool results are cut. */
module Sanitizer {
  import opened OrderedMaps

  datatype Role = ToolResult | OtherRole(name: string)

  /** An item of a message's content; `extra` stands for its other fields. */
  datatype Block = TextBlock(text: string, extra: string) | OtherBlock(raw: string)

  datatype Content = Blocks(items: seq<Block>) | Plain(text: string) | NoText

  /** `pid` and `sessionId` come from the message's details; `extra` stands for all other fields. */
  datatype Message = Message(role: Role, isError: bool, pid: Option<int>, sessionId: Option<string>, content: Content, extra: string)

  /** A line that is no JSON object, or a message; `envelope` stands for the event record around a wrapped message. */
  datatype Entry = Raw(text: string) | Json(message: Message, envelope: Option<string>)

  datatype Line = Blank | Filled(entry: Entry)

  /** The text functions that the sanitizer uses. */
  datatype Hygiene = Hygiene(
    isPoll: string -> bool, mentionsError: string -> bool, trim: string -> string,
    truncates: string -> bool, cut: string -> string, marker: (string, Option<int>, Option<string>) -> string)

  datatype Report = Report(
    originalEntries: nat, sanitizedEntries: nat, suppressedPollFrames: nat, truncatedToolResults: nat, deduplicatedErrors: nat)

  // ----- one message -----

  function BlockText(items: seq<Block>): string {
    if items == [] then ""
    else (if items[0].TextBlock? then items[0].text + "\n" else "") + BlockText(items[1..])
  }

  function TextOf(c: Content): string {
    match c
    case Blocks(items) => BlockText(items)
    case Plain(text) => text
    case NoText => ""
  }

  function WithText(c: Content, text: string): Content {
    if c.Blocks? then Blocks([TextBlock(text, "text")]) else Plain(text)
  }

  function Compact(h: Hygiene, m: Message): Message {
    m.(content := WithText(m.content, h.marker(TextOf(m.content), m.pid, m.sessionId)))
  }

  function Shorten(h: Hygiene, text: string): string {
    if h.truncates(text) then h.cut(text) else text
  }

  function ShortenBlock(h: Hygiene, b: Block): Block {
    if b.TextBlock? then b.(text := Shorten(h, b.text)) else b
  }

  function ShortenBlocks(h: Hygiene, items: seq<Block>): seq<Block> {
    seq(|items|, i requires 0 <= i < |items| => ShortenBlock(h, items[i]))
  }

  function ShortenContent(h: Hygiene, c: Content): Content {
    match c
    case Blocks(items) => Blocks(ShortenBlocks(h, items))
    case Plain(text) => Plain(Shorten(h, text))
    case NoText => NoText
  }

  predicate Truncates(h: Hygiene, c: Content) {
    match c
    case Blocks(items) => exists i :: 0 <= i < |items| && items[i].TextBlock? && h.truncates(items[i].text)
    case Plain(text) => h.truncates(text)
    case NoText => false
  }

  lemma NoBlocks()
    ensures BlockText([]) == ""
  {
  }

  lemma BlockTextStep(items: seq<Block>, i: nat)
    requires i < |items|
    ensures BlockText(items[i..]) ==
            if items[i].TextBlock? then items[i].text + "\n" + BlockText(items[i + 1..]) else BlockText(items[i + 1..])
  {
    assert items[i..][1..] == items[i + 1..] && items[i..][0] == items[i];
  }

  method CollectText(c: Content) returns (text: string)
    ensures text == TextOf(c)
  {
    text := "";
    match c
    case Blocks(items) =>
      hide BlockText;
      NoBlocks();
      var i := 0;
      while i < |items|
        invariant 0 <= i <= |items|
        invariant text + BlockText(items[i..]) == BlockText(items)
      {
        BlockTextStep(items, i);
        if items[i].TextBlock? { text := text + items[i].text + "\n"; }
        i := i + 1;
      }
    case Plain(t) => text := t;
    case NoText =>
  }

  /** Cuts the long texts of a tool result; `changed` says whether there was one. */
  method Truncate(h: Hygiene, m: Message) returns (next: Message, changed: bool)
    ensures changed <==> Truncates(h, m.content)
    ensures next == m.(content := ShortenContent(h, m.content))
  {
    next, changed := m, false;
    match m.content
    case Blocks(items) =>
      var blocks: seq<Block> := [];
      for i := 0 to |items|
        invariant |blocks| == i && forall j :: 0 <= j < i ==> blocks[j] == ShortenBlock(h, items[j])
        invariant changed <==> exists j :: 0 <= j < i && items[j].TextBlock? && h.truncates(items[j].text)
      {
        if items[i].TextBlock? && h.truncates(items[i].text) {
          changed := true;
          blocks := blocks + [items[i].(text := h.cut(items[i].text))];
        } else {
          blocks := blocks + [items[i]];
        }
      }
      assert blocks == ShortenBlocks(h, items);
      if changed { next := m.(content := Blocks(blocks)); } else { assert blocks == items; }
    case Plain(text) =>
      if h.truncates(text) {
        changed := true;
        next := m.(content := Plain(h.cut(text)));
      }
    case NoText =>
  }

  // ----- which entries stay -----

  predicate IsTool(e: Entry) {
    e.Json? && e.message.role.ToolResult?
  }

  predicate IsPoll(h: Hygiene, e: Entry) {
    IsTool(e) && h.isPoll(TextOf(e.message.content))
  }

  predicate IsError(h: Hygiene, e: Entry) {
    IsTool(e) && !IsPoll(h, e) && (e.message.isError || h.mentionsError(TextOf(e.message.content)))
  }

  function ErrorText(h: Hygiene, e: Entry): Option<string> {
    if IsError(h, e) then Some(h.trim(TextOf(e.message.content))) else None
  }

  /** Two errors with the same text, up to surrounding white space; errors without any text never count as the same. */
  predicate SameError(h: Hygiene, a: Entry, b: Entry) {
    ErrorText(h, a).Some? && ErrorText(h, a).value != "" && ErrorText(h, a) == ErrorText(h, b)
  }

  predicate Repeats(h: Hygiene, a: Entry, b: Entry) {
    (IsPoll(h, a) && IsPoll(h, b)) || SameError(h, a, b)
  }

  /** What is written for an entry that stays. */
  function Norm(h: Hygiene, e: Entry): Entry {
    if !IsTool(e) then e
    else if IsPoll(h, e) then e.(message := Compact(h, e.message))
    else e.(message := e.message.(content := ShortenContent(h, e.message.content)))
  }

  predicate Dropped(h: Hygiene, es: seq<Entry>, i: nat)
    requires i < |es|
  {
    i > 0 && Repeats(h, es[i - 1], es[i])
  }

  /** The entries that do not repeat the one before: the first of every run. */
  function Kept(h: Hygiene, es: seq<Entry>): seq<Entry> {
    if es == [] then []
    else
      var n := |es| - 1;
      if Dropped(h, es, n) then Kept(h, es[..n]) else Kept(h, es[..n]) + [es[n]]
  }

  function Normed(h: Hygiene, es: seq<Entry>): seq<Entry> {
    seq(|es|, i requires 0 <= i < |es| => Norm(h, es[i]))
  }

  function Sanitized(h: Hygiene, es: seq<Entry>): seq<Entry> {
    Normed(h, Kept(h, es))
  }

  function Entries(lines: seq<Line>): seq<Entry> {
    if lines == [] then []
    else
      var n := |lines| - 1;
      Entries(lines[..n]) + (if lines[n].Filled? then [lines[n].entry] else [])
  }

  function Polls(h: Hygiene, es: seq<Entry>): nat {
    if es == [] then 0
    else
      var n := |es| - 1;
      Polls(h, es[..n]) + (if n > 0 && IsPoll(h, es[n - 1]) && IsPoll(h, es[n]) then 1 else 0)
  }

  function Duplicates(h: Hygiene, es: seq<Entry>): nat {
    if es == [] then 0
    else
      var n := |es| - 1;
      Duplicates(h, es[..n]) + (if n > 0 && SameError(h, es[n - 1], es[n]) then 1 else 0)
  }

  predicate IsCut(h: Hygiene, e: Entry) {
    IsTool(e) && !IsPoll(h, e) && Truncates(h, e.message.content)
  }

  /** The tool results among the kept entries that are cut. */
  function CutsIn(h: Hygiene, kept: seq<Entry>): nat {
    if kept == [] then 0
    else CutsIn(h, kept[..|kept| - 1]) + (if IsCut(h, kept[|kept| - 1]) then 1 else 0)
  }

  // ----- the scan -----

  method ReadEntries(lines: seq<Line>) returns (entries: seq<Entry>)
    ensures entries == Entries(lines)
  {
    entries := [];
    for i := 0 to |lines|
      invariant entries == Entries(lines[..i])
    {
      assert lines[..i + 1][..i] == lines[..i];
      if lines[i].Filled? { entries := entries + [lines[i].entry]; }
    }
    assert lines[..|lines|] == lines;
  }

  /** The scan's memory after an entry: whether it is in a run of polls, and the last error's text. */
  datatype Scan = Scan(inPollSequence: bool, lastErrorMessage: Option<string>)

  function After(h: Hygiene, es: seq<Entry>): Scan {
    if es == [] then Scan(false, None)
    else Scan(IsPoll(h, es[|es| - 1]), ErrorText(h, es[|es| - 1]))
  }

  datatype Verdict = Keep(entry: Entry, cut: bool) | SuppressPoll | DropDuplicate

  function VerdictOf(h: Hygiene, before: seq<Entry>, e: Entry): Verdict {
    if before != [] && IsPoll(h, before[|before| - 1]) && IsPoll(h, e) then SuppressPoll
    else if before != [] && SameError(h, before[|before| - 1], e) then DropDuplicate
    else Keep(Norm(h, e), IsCut(h, e))
  }

  /** One iteration of the scan. */
  method ScanEntry(h: Hygiene, ghost before: seq<Entry>, e: Entry, scan: Scan) returns (verdict: Verdict, next: Scan)
    requires scan == After(h, before)
    ensures next == After(h, before + [e])
    ensures verdict == VerdictOf(h, before, e)
  {
    if !IsTool(e) {
      return Keep(e, false), Scan(false, None);
    }
    var text := CollectText(e.message.content);
    if h.isPoll(text) {
      if scan.inPollSequence {
        return SuppressPoll, scan;
      }
      return Keep(e.(message := Compact(h, e.message)), false), Scan(true, None);
    }
    next := Scan(false, None);
    if e.message.isError || h.mentionsError(text) {
      if scan.lastErrorMessage.Some? && scan.lastErrorMessage.value != "" && scan.lastErrorMessage.value == h.trim(text) {
        return DropDuplicate, Scan(false, scan.lastErrorMessage);
      }
      next := Scan(false, Some(h.trim(text)));
    }
    var message, changed := Truncate(h, e.message);
    verdict := Keep(e.(message := message), changed);
  }

  /** The output so far and the report's counters. */
  datatype Tally = Tally(result: seq<Entry>, polls: nat, cuts: nat, duplicates: nat) {
    function Add(v: Verdict): Tally {
      match v
      case Keep(e, cut) => this.(result := result + [e], cuts := cuts + if cut then 1 else 0)
      case SuppressPoll => this.(polls := polls + 1)
      case DropDuplicate => this.(duplicates := duplicates + 1)
    }
  }

  function TallyOf(h: Hygiene, es: seq<Entry>): Tally {
    Tally(Sanitized(h, es), Polls(h, es), CutsIn(h, Kept(h, es)), Duplicates(h, es))
  }

  lemma KeptStep(h: Hygiene, es: seq<Entry>, e: Entry)
    ensures Kept(h, es + [e]) == if es != [] && Repeats(h, es[|es| - 1], e) then Kept(h, es) else Kept(h, es) + [e]
  {
    assert (es + [e])[..|es|] == es;
  }

  lemma KeptOneMore(h: Hygiene, k: seq<Entry>, e: Entry)
    ensures Normed(h, k + [e]) == Normed(h, k) + [Norm(h, e)]
    ensures CutsIn(h, k + [e]) == CutsIn(h, k) + (if IsCut(h, e) then 1 else 0)
  {
    assert (k + [e])[..|k|] == k;
  }

  lemma CountStep(h: Hygiene, es: seq<Entry>, e: Entry)
    ensures Polls(h, es + [e]) == Polls(h, es) + (if es != [] && IsPoll(h, es[|es| - 1]) && IsPoll(h, e) then 1 else 0)
    ensures Duplicates(h, es + [e]) == Duplicates(h, es) + (if es != [] && SameError(h, es[|es| - 1], e) then 1 else 0)
  {
    assert (es + [e])[..|es|] == es;
  }

  lemma PollIsNoError(h: Hygiene, a: Entry, b: Entry)
    requires IsPoll(h, a) && IsPoll(h, b)
    ensures !SameError(h, a, b)
  {
  }

  lemma TallyStep(h: Hygiene, es: seq<Entry>, e: Entry)
    ensures TallyOf(h, es + [e]) == TallyOf(h, es).Add(VerdictOf(h, es, e))
  {
    var poll := es != [] && IsPoll(h, es[|es| - 1]) && IsPoll(h, e);
    var same := es != [] && SameError(h, es[|es| - 1], e);
    KeptStep(h, es, e);
    CountStep(h, es, e);
    if poll {
      PollIsNoError(h, es[|es| - 1], e);
    } else if !same {
      KeptOneMore(h, Kept(h, es), e);
    }
  }

  /** The scan: the output is the first entry of every run, cleaned, and the report accounts for every entry. */
  method SanitizeEntries(h: Hygiene, entries: seq<Entry>) returns (tally: Tally)
    ensures tally == TallyOf(h, entries)
    ensures |entries| == |tally.result| + tally.polls + tally.duplicates
  {
    tally := Tally([], 0, 0, 0);
    var scan := Scan(false, None);
    for i := 0 to |entries|
      invariant scan == After(h, entries[..i]) && tally == TallyOf(h, entries[..i])
      invariant i == |tally.result| + tally.polls + tally.duplicates
    {
      ghost var done := entries[..i];
      assert entries[..i + 1] == done + [entries[i]];
      TallyStep(h, done, entries[i]);
      var verdict;
      verdict, scan := ScanEntry(h, done, entries[i], scan);
      tally := tally.Add(verdict);
    }
    assert entries[..|entries|] == entries;
  }

  method SanitizeTranscriptLines(h: Hygiene, lines: seq<Line>) returns (result: seq<Entry>, report: Report)
    ensures result == Sanitized(h, Entries(lines))
    ensures report.originalEntries == |Entries(lines)| && report.sanitizedEntries == |result|
    ensures report.originalEntries == report.sanitizedEntries + report.suppressedPollFrames + report.deduplicatedErrors
    ensures report.suppressedPollFrames == Polls(h, Entries(lines)) && report.deduplicatedErrors == Duplicates(h, Entries(lines))
    ensures report.truncatedToolResults == CutsIn(h, Kept(h, Entries(lines)))
  {
    var entries := ReadEntries(lines);
    var tally := SanitizeEntries(h, entries);
    result := tally.result;
    report := Report(|entries|, |result|, tally.polls, tally.cuts, tally.duplicates);
  }

  // ----- the conversation survives -----

  /** The entries that are no tool results. */
  function Conversation(es: seq<Entry>): seq<Entry> {
    if es == [] then []
    else
      var n := |es| - 1;
      Conversation(es[..n]) + (if IsTool(es[n]) then [] else [es[n]])
  }

  lemma ConversationStep(es: seq<Entry>, e: Entry)
    ensures Conversation(es + [e]) == if IsTool(e) then Conversation(es) else Conversation(es) + [e]
  {
    assert (es + [e])[..|es|] == es;
  }

  lemma OnlyToolsRepeat(h: Hygiene, a: Entry, b: Entry)
    requires Repeats(h, a, b)
    ensures IsTool(b)
  {
  }

  /** User, assistant and system turns, and lines that are no JSON, stay as they are and in order. */
  lemma {:induction false} ConversationSurvives(h: Hygiene, es: seq<Entry>)
    ensures Conversation(Sanitized(h, es)) == Conversation(es)
  {
    if es != [] {
      var front, e := es[..|es| - 1], es[|es| - 1];
      ConversationSurvives(h, front);
      assert es == front + [e];
      ConversationStep(front, e);
      KeptStep(h, front, e);
      if front != [] && Repeats(h, front[|front| - 1], e) {
        OnlyToolsRepeat(h, front[|front| - 1], e);
      } else {
        KeptOneMore(h, Kept(h, front), e);
        ConversationStep(Sanitized(h, front), Norm(h, e));
        NormKeepsKind(h, e);
      }
    }
  }

  lemma NormKeepsKind(h: Hygiene, e: Entry)
    ensures IsTool(Norm(h, e)) == IsTool(e) && (!IsTool(e) ==> Norm(h, e) == e)
  {
  }

  // ----- sanitizing twice -----

  /** What the source's text functions satisfy: a cut text is not cut again and differs from the original,
      and cutting makes no message look like a poll. */
  ghost predicate Lawful(h: Hygiene) {
    && (forall t :: h.truncates(t) ==> !h.truncates(h.cut(t)) && h.cut(t) != t)
    && (forall c :: h.isPoll(TextOf(ShortenContent(h, c))) ==> h.isPoll(TextOf(c)))
  }

  /** The marker that replaces a poll frame is left alone by another pass. */
  predicate MarkerStays(h: Hygiene, e: Entry)
    requires IsPoll(h, e)
  {
    var m := Compact(h, e.message);
    var marker := h.marker(TextOf(e.message.content), e.message.pid, e.message.sessionId);
    if h.isPoll(TextOf(m.content)) then h.marker(TextOf(m.content), m.pid, m.sessionId) == marker
    else !h.truncates(marker)
  }

  lemma ShortenTwice(h: Hygiene, c: Content)
    requires Lawful(h)
    ensures ShortenContent(h, ShortenContent(h, c)) == ShortenContent(h, c)
  {
    match c
    case Blocks(items) =>
      assert ShortenBlocks(h, ShortenBlocks(h, items)) == ShortenBlocks(h, items);
    case Plain(text) =>
    case NoText =>
  }

  /** An entry is cleaned once and for all, unless it is a poll frame whose marker does not stay. */
  lemma NormTwice(h: Hygiene, e: Entry)
    requires Lawful(h)
    ensures Norm(h, Norm(h, e)) == Norm(h, e) <==> (IsPoll(h, e) ==> MarkerStays(h, e))
  {
    if IsPoll(h, e) {
      MarkerTwice(h, e);
    } else if IsTool(e) {
      ShortenTwice(h, e.message.content);
    }
  }

  lemma MarkerTwice(h: Hygiene, e: Entry)
    requires Lawful(h) && IsPoll(h, e)
    ensures Norm(h, Norm(h, e)) == Norm(h, e) <==> MarkerStays(h, e)
  {
    var marker := h.marker(TextOf(e.message.content), e.message.pid, e.message.sessionId);
    var c := WithText(e.message.content, marker);
    var m := Norm(h, e);
    assert m.message.content == c;
    if IsPoll(h, m) {
      var again := h.marker(TextOf(c), e.message.pid, e.message.sessionId);
      assert Norm(h, m).message.content == WithText(c, again);
      assert WithText(c, again) == c <==> again == marker by {
        if c.Blocks? { assert WithText(c, again).items[0].text == again && c.items[0].text == marker; }
      }
    } else {
      assert ShortenContent(h, c) == c <==> !h.truncates(marker) by {
        if c.Blocks? { assert ShortenBlocks(h, c.items)[0].text == Shorten(h, marker) && |c.items| == 1; }
      }
    }
  }

  /** No two neighbours among the kept entries repeat each other as polls. */
  lemma {:induction false} KeptPollsApart(h: Hygiene, es: seq<Entry>)
    ensures var k := Kept(h, es);
            && (es != [] ==> k != [] && (IsPoll(h, k[|k| - 1]) <==> IsPoll(h, es[|es| - 1])))
            && (forall i :: 1 <= i < |k| ==> !(IsPoll(h, k[i - 1]) && IsPoll(h, k[i])))
  {
    if es != [] { KeptPollsApart(h, es[..|es| - 1]); }
  }

  lemma DroppedInPrefix(h: Hygiene, es: seq<Entry>, n: nat, i: nat)
    requires i < n <= |es|
    ensures Dropped(h, es[..n], i) == Dropped(h, es, i)
  {
    if i > 0 { assert es[..n][i - 1] == es[i - 1] && es[..n][i] == es[i]; }
  }

  lemma {:induction false} NothingDropped(h: Hygiene, es: seq<Entry>)
    ensures |Kept(h, es)| <= |es|
    ensures |Kept(h, es)| == |es| <==> forall i :: 0 <= i < |es| ==> !Dropped(h, es, i)
    ensures |Kept(h, es)| == |es| ==> Kept(h, es) == es
  {
    if es != [] {
      var n := |es| - 1;
      var front := es[..n];
      NothingDropped(h, front);
      assert es == front + [es[n]];
      forall i | 0 <= i < n ensures Dropped(h, front, i) == Dropped(h, es, i) { DroppedInPrefix(h, es, n, i); }
    }
  }

  /** Another pass changes nothing exactly when no entry repeats the one before and every entry is already clean. */
  lemma UnchangedIff(h: Hygiene, ys: seq<Entry>)
    ensures Sanitized(h, ys) == ys <==>
            (forall i :: 0 <= i < |ys| ==> !Dropped(h, ys, i)) && Normed(h, ys) == ys
  {
    NothingDropped(h, ys);
  }

  lemma NormMakesNoPoll(h: Hygiene, e: Entry)
    requires Lawful(h) && IsPoll(h, Norm(h, e))
    ensures IsPoll(h, e)
  {
  }

  /** Two neighbours that stay but, once their texts are cut or replaced by a marker, read as the same error. */
  predicate Clash(h: Hygiene, kept: seq<Entry>, i: nat)
    requires 0 < i < |kept|
  {
    SameError(h, Norm(h, kept[i - 1]), Norm(h, kept[i]))
  }

  predicate BadMarker(h: Hygiene, kept: seq<Entry>, i: nat)
    requires i < |kept|
  {
    IsPoll(h, kept[i]) && !MarkerStays(h, kept[i])
  }

  /** A condition on the input: no kept neighbours clash and every marker stays. */
  ghost predicate Settles(h: Hygiene, es: seq<Entry>) {
    var kept := Kept(h, es);
    && (forall i :: 0 < i < |kept| ==> !Clash(h, kept, i))
    && (forall i :: 0 <= i < |kept| ==> !BadMarker(h, kept, i))
  }

  lemma DroppedAgainIffClash(h: Hygiene, es: seq<Entry>, i: nat)
    requires Lawful(h) && 0 < i < |Kept(h, es)|
    ensures Dropped(h, Sanitized(h, es), i) <==> Clash(h, Kept(h, es), i)
  {
    var k := Kept(h, es);
    KeptPollsApart(h, es);
    if IsPoll(h, Norm(h, k[i - 1])) { NormMakesNoPoll(h, k[i - 1]); }
    if IsPoll(h, Norm(h, k[i])) { NormMakesNoPoll(h, k[i]); }
  }

  /** Sanitizing twice equals sanitizing once exactly when the input settles. */
  lemma SanitizeTwice(h: Hygiene, es: seq<Entry>)
    requires Lawful(h)
    ensures Sanitized(h, Sanitized(h, es)) == Sanitized(h, es) <==> Settles(h, es)
  {
    var k, ys := Kept(h, es), Sanitized(h, es);
    UnchangedIff(h, ys);
    forall i | 0 < i < |k| ensures Dropped(h, ys, i) <==> Clash(h, k, i) { DroppedAgainIffClash(h, es, i); }
    forall i | 0 <= i < |k| ensures Norm(h, ys[i]) == ys[i] <==> !BadMarker(h, k, i) { NormTwice(h, k[i]); }
    assert Normed(h, ys) == ys <==> forall i :: 0 <= i < |ys| ==> Norm(h, ys[i]) == ys[i];
  }

  lemma {:induction false} KeptErrorsApart(h: Hygiene, es: seq<Entry>)
    ensures var k := Kept(h, es);
            && (es != [] ==> k != [] && ErrorText(h, k[|k| - 1]) == ErrorText(h, es[|es| - 1]))
            && (forall i :: 1 <= i < |k| ==> !SameError(h, k[i - 1], k[i]))
  {
    if es != [] { KeptErrorsApart(h, es[..|es| - 1]); }
  }

  lemma NormOfUncut(h: Hygiene, e: Entry)
    requires !IsPoll(h, e) && !IsCut(h, e)
    ensures Norm(h, e) == e
  {
    if IsTool(e) && e.message.content.Blocks? {
      assert ShortenBlocks(h, e.message.content.items) == e.message.content.items;
    }
  }

  /** Neighbours clash only because one of them was cut or became a marker. */
  lemma ClashHasACause(h: Hygiene, es: seq<Entry>, i: nat)
    requires 0 < i < |Kept(h, es)| && Clash(h, Kept(h, es), i)
    ensures var a, b := Kept(h, es)[i - 1], Kept(h, es)[i]; IsPoll(h, a) || IsCut(h, a) || IsPoll(h, b) || IsCut(h, b)
  {
    var a, b := Kept(h, es)[i - 1], Kept(h, es)[i];
    KeptErrorsApart(h, es);
    if !(IsPoll(h, a) || IsCut(h, a)) { NormOfUncut(h, a); }
    if !(IsPoll(h, b) || IsCut(h, b)) { NormOfUncut(h, b); }
  }

  // ----- what cleaning leaves alone -----

  /** Cleaning an entry changes the content of a tool result and nothing else. A poll frame's content becomes its marker,
      in the same form; of any other result the long texts are cut and everything else stays in its place. */
  lemma NormChangesOnlyContent(h: Hygiene, e: Entry)
    ensures var n := Norm(h, e);
            if !IsTool(e) then n == e
            else
              && n.Json? && n.envelope == e.envelope && n.message == e.message.(content := n.message.content)
              && (if IsPoll(h, e) then
                    n.message.content == WithText(e.message.content, h.marker(TextOf(e.message.content), e.message.pid, e.message.sessionId))
                  else ContentCut(h, e.message.content, n.message.content))
  {
  }

  /** The same content with its long texts cut. */
  ghost predicate ContentCut(h: Hygiene, c: Content, c': Content) {
    match (c, c')
    case (NoText, NoText) => true
    case (Plain(s), Plain(t)) => t == if h.truncates(s) then h.cut(s) else s
    case (Blocks(a), Blocks(b)) =>
      && |a| == |b|
      && forall i :: 0 <= i < |a| ==>
           if a[i].OtherBlock? then b[i] == a[i]
           else b[i] == TextBlock(if h.truncates(a[i].text) then h.cut(a[i].text) else a[i].text, a[i].extra)
    case _ => false
  }

  /** A tool result counts as truncated exactly when cleaning changes it. */
  lemma CutIffChanged(h: Hygiene, e: Entry)
    requires Lawful(h) && !IsPoll(h, e)
    ensures IsCut(h, e) <==> Norm(h, e) != e
  {
    if IsCut(h, e) {
      if e.message.content.Blocks? {
        var items := e.message.content.items;
        var i :| 0 <= i < |items| && items[i].TextBlock? && h.truncates(items[i].text);
        assert ShortenBlocks(h, items)[i] != items[i];
      }
    } else {
      NormOfUncut(h, e);
    }
  }

  /** Reading drops the blank lines and nothing else. */
  lemma {:induction false} EntriesOfParts(a: seq<Line>, b: seq<Line>)
    ensures Entries(a + b) == Entries(a) + Entries(b)
    ensures forall e :: Entries([Filled(e)]) == [e]
    ensures Entries([Blank]) == []
  {
    forall e ensures Entries([Filled(e)]) == [e] { assert [Filled(e)][..0] == []; }
    assert [Blank][..0] == [];
    if b == [] {
      assert a + b == a;
    } else {
      var n := |b| - 1;
      assert (a + b)[..|a + b| - 1] == a + b[..n];
      EntriesOfParts(a, b[..n]);
    }
  }
}
