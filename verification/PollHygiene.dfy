/** Recognising tool results that report no news, and replacing them by a marker. */
module PollHygiene {
  import opened OrderedMaps
  import opened Texts
  import opened Sanitizer
  import opened ToolResultHygiene

  const ZERO_DELTA_POLL_PATTERNS: seq<string> := ["(no new output)", "process still running", "in_progress none", "no new output for"]

  predicate IsZeroDeltaPollText(text: string) {
    exists k :: 0 <= k < |ZERO_DELTA_POLL_PATTERNS| && Occurs(text, ZERO_DELTA_POLL_PATTERNS[k])
  }

  /** Every pattern has a 'p' and an 'n', and none has a line break. */
  function PlaceOfP(k: nat): nat
    requires k < 4
  {
    [11, 0, 3, 10][k]
  }

  function PlaceOfN(k: nat): nat
    requires k < 4
  {
    [1, 17, 1, 0][k]
  }

  lemma PatternFacts(k: nat)
    requires k < |ZERO_DELTA_POLL_PATTERNS|
    ensures var p := ZERO_DELTA_POLL_PATTERNS[k];
            && k < 4 && PlaceOfP(k) < |p| && p[PlaceOfP(k)] == 'p'
            && PlaceOfN(k) < |p| && p[PlaceOfN(k)] == 'n' && Lacks(p, '\n') && Lacks(p, '=') && Lacks(p, ']')
  {
    match k
    case 0 => assert ZERO_DELTA_POLL_PATTERNS[0] == "(no new output)";
    case 1 => assert ZERO_DELTA_POLL_PATTERNS[1] == "process still running";
    case 2 => assert ZERO_DELTA_POLL_PATTERNS[2] == "in_progress none";
    case _ => assert ZERO_DELTA_POLL_PATTERNS[3] == "no new output for";
  }

  // ----- cutting makes no poll -----

  predicate NoP(s: string) {
    forall i :: 0 <= i < |s| ==> Lower(s[i]) != 'p'
  }

  lemma NoticeHasNoP(omitted: nat)
    ensures OmissionNotice(omitted)[0] == '\n' && OmissionNotice(omitted)[|OmissionNotice(omitted)| - 1] == '\n'
    ensures NoP(OmissionNotice(omitted))
  {
    hide Digits;
    DigitsAreDigits(omitted);
    var d := Digits(omitted);
    assert NoP(d);
    assert NoP(OMISSION_NOTICE_PREFIX) && NoP(TAG) && NoP(NOTICE_END) && NoP(" ");
    NoPJoins(OMISSION_NOTICE_PREFIX, d);
    NoPJoins(OMISSION_NOTICE_PREFIX + d, " ");
    NoPJoins(NoticeStart(omitted), TAG);
    NoPJoins(NoticeStart(omitted) + TAG, NOTICE_END);
  }

  lemma NoPJoins(a: string, b: string)
    requires NoP(a) && NoP(b)
    ensures NoP(a + b)
  {
  }

  /** A pattern found around text that lies between two line breaks and lacks one of its letters was there before. */
  lemma FoundAtTheEnds(head: string, notice: string, tail: string, k: nat)
    requires k < |ZERO_DELTA_POLL_PATTERNS|
    requires |notice| >= 2 && notice[0] == '\n' && notice[|notice| - 1] == '\n' && NoP(notice)
    requires Occurs(head + notice + tail, ZERO_DELTA_POLL_PATTERNS[k])
    ensures Occurs(head, ZERO_DELTA_POLL_PATTERNS[k]) || Occurs(tail, ZERO_DELTA_POLL_PATTERNS[k])
  {
    var p := ZERO_DELTA_POLL_PATTERNS[k];
    PatternFacts(k);
    var mid := notice[1..|notice| - 1];
    assert notice == "\n" + mid + "\n";
    assert head + notice + tail == head + "\n" + (mid + "\n" + tail);
    OccursBesideBreak(head, mid + "\n" + tail, p);
    OccursBesideBreak(mid, tail, p);
    assert forall i :: 0 <= i < |mid| ==> mid[i] == notice[i + 1];
    LetterMissing(mid, p, PlaceOfP(k));
  }

  lemma EndsAreInside(text: string, n: nat, m: nat, p: string)
    requires n <= |text| && m <= |text| && (Occurs(text[..n], p) || Occurs(text[m..], p))
    ensures Occurs(text, p)
  {
    if Occurs(text[..n], p) {
      OccursInside("", text[..n], text[n..], p);
      assert "" + text[..n] + text[n..] == text;
    } else {
      OccursInside(text[..m], text[m..], "", p);
      assert text[..m] + text[m..] + "" == text;
    }
  }

  lemma FoundAfterCut(text: string, o: Options, k: nat)
    requires NeedsCut(text, o) && k < |ZERO_DELTA_POLL_PATTERNS| && Occurs(CutText(text, o), ZERO_DELTA_POLL_PATTERNS[k])
    ensures Occurs(text, ZERO_DELTA_POLL_PATTERNS[k])
  {
    var n := |text| - (o.headChars + o.tailChars);
    var tail := LastChars(text, o.tailChars);
    NoticeHasNoP(n);
    FoundAtTheEnds(text[..o.headChars], OmissionNotice(n), tail, k);
    assert tail == text[|text| - |tail|..];
    EndsAreInside(text, o.headChars, |text| - |tail|, ZERO_DELTA_POLL_PATTERNS[k]);
  }

  lemma CutMakesNoPoll(text: string, o: Options)
    requires IsZeroDeltaPollText(Shortened(text, o))
    ensures IsZeroDeltaPollText(text)
  {
    if NeedsCut(text, o) {
      var k :| 0 <= k < |ZERO_DELTA_POLL_PATTERNS| && Occurs(CutText(text, o), ZERO_DELTA_POLL_PATTERNS[k]);
      FoundAfterCut(text, o, k);
    }
  }

  // ----- messages with several texts -----

  predicate BlockIsPoll(b: Block) {
    b.TextBlock? && IsZeroDeltaPollText(b.text)
  }

  lemma BreakIsNoPoll(a: string, b: string)
    ensures IsZeroDeltaPollText(a + "\n" + b) <==> IsZeroDeltaPollText(a) || IsZeroDeltaPollText(b)
  {
    forall k | 0 <= k < |ZERO_DELTA_POLL_PATTERNS|
      ensures Occurs(a + "\n" + b, ZERO_DELTA_POLL_PATTERNS[k]) <==>
              Occurs(a, ZERO_DELTA_POLL_PATTERNS[k]) || Occurs(b, ZERO_DELTA_POLL_PATTERNS[k])
    {
      PatternFacts(k);
      OccursBesideBreak(a, b, ZERO_DELTA_POLL_PATTERNS[k]);
    }
  }

  lemma NothingIsNoPoll()
    ensures !IsZeroDeltaPollText("")
  {
    forall k | 0 <= k < |ZERO_DELTA_POLL_PATTERNS| ensures !Occurs("", ZERO_DELTA_POLL_PATTERNS[k]) {
      PatternFacts(k);
      LetterMissing("", ZERO_DELTA_POLL_PATTERNS[k], PlaceOfP(k));
    }
  }

  /** A message with several texts is a poll exactly when one of its texts is. */
  lemma {:induction false} BlocksPoll(items: seq<Block>)
    ensures IsZeroDeltaPollText(BlockText(items)) <==> exists i :: 0 <= i < |items| && BlockIsPoll(items[i])
  {
    if items == [] {
      NothingIsNoPoll();
    } else {
      BlocksPoll(items[1..]);
      if items[0].TextBlock? {
        BreakIsNoPoll(items[0].text, BlockText(items[1..]));
      } else {
        assert BlockText(items) == BlockText(items[1..]);
      }
      SomeFirstOrRest(items);
    }
  }

  lemma SomeFirstOrRest(items: seq<Block>)
    requires items != []
    ensures (exists i :: 0 <= i < |items| && BlockIsPoll(items[i])) <==>
            BlockIsPoll(items[0]) || (exists i :: 0 <= i < |items[1..]| && BlockIsPoll(items[1..][i]))
  {
    if i :| 0 <= i < |items| && BlockIsPoll(items[i]) {
      if i > 0 { assert BlockIsPoll(items[1..][i - 1]); }
    }
  }

  // ----- the marker -----

  function Numeral(n: int): string {
    if n < 0 then "-" + Digits(-n) else Digits(n)
  }

  function CompactPollMarker(pid: Option<int>, sessionId: Option<string>): string {
    if pid.Some? then "[poll: active pid=" + Numeral(pid.value) + "]"
    else if sessionId.Some? && sessionId.value != "" then "[poll: active session=" + sessionId.value + "]"
    else "[poll: active]"
  }

  /** What white-space rules and regular expressions for ids the source applies to a text. */
  datatype Reading = Reading(trim: string -> string, pidIn: string -> Option<int>, sessionIn: string -> Option<string>)

  /** The details' value, unless it is missing or zero, or missing or empty, and the text has one. */
  function PidFor(rd: Reading, text: string, pid: Option<int>): Option<int> {
    if (pid.None? || pid.value == 0) && rd.pidIn(text).Some? then rd.pidIn(text) else pid
  }

  function SessionFor(rd: Reading, text: string, sessionId: Option<string>): Option<string> {
    if (sessionId.None? || sessionId.value == "") && rd.sessionIn(text).Some? then rd.sessionIn(text) else sessionId
  }

  function MarkerFor(rd: Reading, text: string, pid: Option<int>, sessionId: Option<string>): string {
    CompactPollMarker(PidFor(rd, text, pid), SessionFor(rd, text, sessionId))
  }

  const ERROR_WORD := "error:"

  /** The sanitizer's text functions as the source has them. */
  function Configured(o: Options, rd: Reading): Hygiene {
    Hygiene(t => IsZeroDeltaPollText(t), t => Occurs(t, ERROR_WORD), rd.trim, t => NeedsCut(t, o), t => Shortened(t, o),
            (t, pid, sessionId) => MarkerFor(rd, t, pid, sessionId))
  }

  lemma CutMessageIsNoPoll(o: Options, rd: Reading, c: Content)
    requires IsZeroDeltaPollText(TextOf(ShortenContent(Configured(o, rd), c)))
    ensures IsZeroDeltaPollText(TextOf(c))
  {
    var h := Configured(o, rd);
    match c
    case Blocks(items) =>
      var cut := ShortenBlocks(h, items);
      BlocksPoll(cut);
      BlocksPoll(items);
      var i :| 0 <= i < |cut| && BlockIsPoll(cut[i]);
      assert cut[i] == ShortenBlock(h, items[i]);
      CutMakesNoPoll(items[i].text, o);
      assert BlockIsPoll(items[i]);
    case Plain(text) =>
      CutMakesNoPoll(text, o);
    case NoText =>
  }

  lemma ConfiguredIsLawful(o: Options, rd: Reading)
    ensures Lawful(Configured(o, rd))
  {
    var h := Configured(o, rd);
    forall t | h.truncates(t) ensures !h.truncates(h.cut(t)) && h.cut(t) != t { CutIsFinal(t, o); }
    forall c | h.isPoll(TextOf(ShortenContent(h, c))) ensures h.isPoll(TextOf(c)) { CutMessageIsNoPoll(o, rd, c); }
  }

  /** The sanitizer, with the source's texts: a second pass changes nothing exactly when the input settles. */
  lemma SecondPassIff(o: Options, rd: Reading, es: seq<Entry>)
    ensures var h := Configured(o, rd);
            Sanitized(h, Sanitized(h, es)) == Sanitized(h, es) <==> Settles(h, es)
  {
    ConfiguredIsLawful(o, rd);
    SanitizeTwice(Configured(o, rd), es);
  }

  // ----- which markers stay -----

  lemma LettersOfMarkers()
    ensures forall i :: 0 <= i < |"[poll: active session"| ==> Lower("[poll: active session"[i]) !in ['r', 'u', '_']
  {
  }

  /** Every pattern has an 'r', a 'u' or an underscore; so has the error word. */
  lemma NotInMarkerStart(k: nat)
    requires k < |ZERO_DELTA_POLL_PATTERNS|
    ensures !Occurs("[poll: active session", ZERO_DELTA_POLL_PATTERNS[k]) && !Occurs("[poll: active session", ERROR_WORD)
  {
    LettersOfMarkers();
    PatternFacts(k);
    LetterMissing("[poll: active session", ERROR_WORD, 1);
    match k
    case 0 => LetterMissing("[poll: active session", ZERO_DELTA_POLL_PATTERNS[0], 9);
    case 1 => LetterMissing("[poll: active session", ZERO_DELTA_POLL_PATTERNS[1], 1);
    case 2 => LetterMissing("[poll: active session", ZERO_DELTA_POLL_PATTERNS[2], 2);
    case _ => LetterMissing("[poll: active session", ZERO_DELTA_POLL_PATTERNS[3], 8);
  }

  /** What is found in a marker with a session id is found in the id. */
  lemma FoundInSession(session: string, p: string)
    requires Lacks(p, '=') && Lacks(p, ']') && p != "" && !Occurs("[poll: active session", p)
    ensures Occurs("[poll: active session=" + session + "]", p) <==> Occurs(session, p)
  {
    OccursBeside("[poll: active session", '=', session + "]", p);
    OccursBeside(session, ']', "", p);
    assert "[poll: active session=" + session + "]" == "[poll: active session" + ['='] + (session + "]");
    assert session + "]" == session + [']'] + "";
  }

  lemma SessionMarkerFacts(session: string)
    ensures var marker := "[poll: active session=" + session + "]";
            && (IsZeroDeltaPollText(marker) <==> IsZeroDeltaPollText(session))
            && (Occurs(marker, ERROR_WORD) <==> Occurs(session, ERROR_WORD))
  {
    forall k | 0 <= k < |ZERO_DELTA_POLL_PATTERNS|
      ensures Occurs("[poll: active session=" + session + "]", ZERO_DELTA_POLL_PATTERNS[k]) <==> Occurs(session, ZERO_DELTA_POLL_PATTERNS[k])
    {
      PatternFacts(k);
      NotInMarkerStart(k);
      FoundInSession(session, ZERO_DELTA_POLL_PATTERNS[k]);
    }
    NotInMarkerStart(0);
    FoundInSession(session, ERROR_WORD);
  }

  /** No letter of the text is an 'n' or an 'r'. */
  predicate NoNR(s: string) {
    forall i :: 0 <= i < |s| ==> Lower(s[i]) != 'n' && Lower(s[i]) != 'r'
  }

  lemma NoNRJoins(a: string, b: string)
    requires NoNR(a) && NoNR(b)
    ensures NoNR(a + b)
  {
  }

  lemma PidMarkerLetters(pid: Option<int>)
    ensures NoNR(CompactPollMarker(pid, None))
  {
    if pid.Some? {
      var n := if pid.value < 0 then -pid.value else pid.value;
      DigitsAreDigits(n);
      var d := Digits(n);
      assert NoNR(d) && NoNR("-") && NoNR("[poll: active pid=") && NoNR("]");
      NoNRJoins("-", d);
      NoNRJoins("[poll: active pid=", Numeral(pid.value));
      NoNRJoins("[poll: active pid=" + Numeral(pid.value), "]");
    } else {
      assert NoNR("[poll: active]");
    }
  }

  /** A marker that names a process, or nothing, is neither a poll text nor an error. */
  lemma PidMarkerIsNoPoll(pid: Option<int>)
    ensures !IsZeroDeltaPollText(CompactPollMarker(pid, None)) && !Occurs(CompactPollMarker(pid, None), ERROR_WORD)
  {
    hide CompactPollMarker;
    var marker := CompactPollMarker(pid, None);
    PidMarkerLetters(pid);
    forall k | 0 <= k < |ZERO_DELTA_POLL_PATTERNS| ensures !Occurs(marker, ZERO_DELTA_POLL_PATTERNS[k]) {
      PatternFacts(k);
      LetterMissing(marker, ZERO_DELTA_POLL_PATTERNS[k], PlaceOfN(k));
    }
    LetterMissing(marker, ERROR_WORD, 1);
  }

  /** The session id that a frame's marker shows, if it shows one. */
  function ShownSession(rd: Reading, m: Message): Option<string> {
    var session := SessionFor(rd, TextOf(m.content), m.sessionId);
    if PidFor(rd, TextOf(m.content), m.pid).None? && session.Some? && session.value != "" then session else None
  }

  function MarkerOf(rd: Reading, m: Message): string {
    MarkerFor(rd, TextOf(m.content), m.pid, m.sessionId)
  }

  lemma MarkerIs(rd: Reading, m: Message)
    ensures var session := ShownSession(rd, m);
            MarkerOf(rd, m) == if session.Some? then "[poll: active session=" + session.value + "]"
                               else CompactPollMarker(PidFor(rd, TextOf(m.content), m.pid), None)
  {
  }

  lemma MarkerFacts(rd: Reading, m: Message)
    ensures var session := ShownSession(rd, m);
            && (IsZeroDeltaPollText(MarkerOf(rd, m)) <==> session.Some? && IsZeroDeltaPollText(session.value))
            && (Occurs(MarkerOf(rd, m), ERROR_WORD) <==> session.Some? && Occurs(session.value, ERROR_WORD))
  {
    MarkerIs(rd, m);
    var session := ShownSession(rd, m);
    if session.Some? {
      SessionMarkerFacts(session.value);
    } else {
      PidMarkerIsNoPoll(PidFor(rd, TextOf(m.content), m.pid));
    }
  }

  /** The text that another pass reads where the first one wrote a marker. */
  function Reread(c: Content, marker: string): string {
    if c.Blocks? then marker + "\n" else marker
  }

  lemma RereadText(c: Content, marker: string)
    ensures TextOf(WithText(c, marker)) == Reread(c, marker)
    ensures IsZeroDeltaPollText(Reread(c, marker)) <==> IsZeroDeltaPollText(marker)
    ensures Occurs(Reread(c, marker), ERROR_WORD) <==> Occurs(marker, ERROR_WORD)
  {
    if c.Blocks? {
      assert BlockText([TextBlock(marker, "text")]) == marker + "\n" + BlockText([]);
      assert marker + "\n" + "" == marker + "\n";
      BreakIsNoPoll(marker, "");
      NothingIsNoPoll();
      OccursBesideBreak(marker, "", ERROR_WORD);
      LetterMissing("", ERROR_WORD, 1);
    }
  }

  /** The exact condition: a marker whose session id reads as a poll stays when another pass finds no process id and
      the same session id; any other marker stays when it is not too long. */
  predicate Stable(o: Options, rd: Reading, m: Message) {
    var session, marker := ShownSession(rd, m), MarkerOf(rd, m);
    if session.Some? && IsZeroDeltaPollText(session.value) then
      && rd.pidIn(Reread(m.content, marker)).None?
      && ((m.sessionId.Some? && m.sessionId.value != "") || rd.sessionIn(Reread(m.content, marker)) == session)
    else !NeedsCut(marker, o)
  }

  lemma MarkerStaysIff(o: Options, rd: Reading, e: Entry)
    requires IsPoll(Configured(o, rd), e)
    ensures MarkerStays(Configured(o, rd), e) <==> Stable(o, rd, e.message)
  {
    var m := e.message;
    var marker, session := MarkerOf(rd, m), ShownSession(rd, m);
    MarkerFacts(rd, m);
    MarkerIs(rd, m);
    RereadText(m.content, marker);
    if session.Some? && IsZeroDeltaPollText(session.value) {
      SameMarkerIff(rd, m, Reread(m.content, marker));
    }
  }

  lemma SessionMarkersDiffer(a: string, b: string)
    requires "[poll: active session=" + a + "]" == "[poll: active session=" + b + "]"
    ensures a == b
  {
    var s := "[poll: active session=" + a + "]";
    assert a == s[22..|s| - 1] && b == s[22..|s| - 1];
  }

  /** Reading `again` gives the same marker with a session id. */
  lemma SameMarkerIff(rd: Reading, m: Message, again: string)
    requires ShownSession(rd, m).Some?
    ensures MarkerFor(rd, again, m.pid, m.sessionId) == MarkerOf(rd, m) <==>
            rd.pidIn(again).None? && ((m.sessionId.Some? && m.sessionId.value != "") || rd.sessionIn(again) == ShownSession(rd, m))
  {
    var session := ShownSession(rd, m).value;
    MarkerIs(rd, m);
    var pid', session' := PidFor(rd, again, m.pid), SessionFor(rd, again, m.sessionId);
    assert pid' == rd.pidIn(again);
    var next := CompactPollMarker(pid', session');
    if pid'.Some? {
      assert next[14] == 'p' && MarkerOf(rd, m)[14] == 's';
    } else if session'.Some? && session'.value != "" {
      if next == MarkerOf(rd, m) { SessionMarkersDiffer(session'.value, session); }
    } else {
      assert next[13] == ']' && MarkerOf(rd, m)[13] == ' ';
    }
  }

  // ----- inputs that settle -----

  /** A tool result that is no poll is short; a poll frame is not flagged as an error, and its marker is short and shows
      no session id that reads as a poll or as an error. */
  predicate Quiet(o: Options, rd: Reading, e: Entry) {
    IsTool(e) ==>
      var m := e.message;
      if !IsZeroDeltaPollText(TextOf(m.content)) then !Truncates(Configured(o, rd), m.content)
      else
        var session := ShownSession(rd, m);
        && !m.isError && !NeedsCut(MarkerOf(rd, m), o)
        && (session.Some? ==> !IsZeroDeltaPollText(session.value) && !Occurs(session.value, ERROR_WORD))
  }

  lemma QuietIsNoError(o: Options, rd: Reading, e: Entry)
    requires Quiet(o, rd, e) && IsPoll(Configured(o, rd), e)
    ensures ErrorText(Configured(o, rd), Norm(Configured(o, rd), e)).None? && MarkerStays(Configured(o, rd), e)
  {
    MarkerFacts(rd, e.message);
    RereadText(e.message.content, MarkerOf(rd, e.message));
    MarkerStaysIff(o, rd, e);
  }

  lemma {:induction false} KeptAreEntries(h: Hygiene, es: seq<Entry>, e: Entry)
    requires e in Kept(h, es)
    ensures e in es
  {
    var n := |es| - 1;
    assert es == es[..n] + [es[n]];
    if e in Kept(h, es[..n]) { KeptAreEntries(h, es[..n], e); }
  }

  /** A second pass changes nothing when every entry of the input is quiet. */
  lemma QuietInputSettles(o: Options, rd: Reading, es: seq<Entry>)
    requires forall e :: e in es ==> Quiet(o, rd, e)
    ensures var h := Configured(o, rd); Sanitized(h, Sanitized(h, es)) == Sanitized(h, es)
  {
    hide Quiet, Clash, Sanitized, Stable, Configured;
    var h := Configured(o, rd);
    var kept := Kept(h, es);
    forall i | 0 <= i < |kept| ensures Quiet(o, rd, kept[i]) { KeptAreEntries(h, es, kept[i]); }
    forall i | 0 <= i < |kept| ensures !BadMarker(h, kept, i) {
      if IsPoll(h, kept[i]) { QuietIsNoError(o, rd, kept[i]); }
    }
    forall i | 0 < i < |kept| ensures !Clash(h, kept, i) { QuietNeighbours(o, rd, es, i); }
    SecondPassIff(o, rd, es);
  }

  lemma QuietIsUncut(o: Options, rd: Reading, e: Entry)
    requires Quiet(o, rd, e)
    ensures !IsCut(Configured(o, rd), e)
  {
  }

  lemma QuietNeighbours(o: Options, rd: Reading, es: seq<Entry>, i: nat)
    requires var kept := Kept(Configured(o, rd), es); 0 < i < |kept| && Quiet(o, rd, kept[i - 1]) && Quiet(o, rd, kept[i])
    ensures !Clash(Configured(o, rd), Kept(Configured(o, rd), es), i)
  {
    hide Quiet, Configured;
    var h := Configured(o, rd);
    var a, b := Kept(h, es)[i - 1], Kept(h, es)[i];
    QuietIsUncut(o, rd, a);
    QuietIsUncut(o, rd, b);
    if IsPoll(h, a) { QuietIsNoError(o, rd, a); }
    if IsPoll(h, b) { QuietIsNoError(o, rd, b); }
    if Clash(h, Kept(h, es), i) { ClashHasACause(h, es, i); }
  }

  // ----- an input that does not settle -----

  function Failure(text: string): Entry {
    Json(Message(ToolResult, true, None, None, Plain(text), ""), None)
  }

  lemma DifferentErrorsStay(h: Hygiene, a: Entry, b: Entry)
    requires !Repeats(h, a, b)
    ensures Kept(h, [a, b]) == [a, b] && |Sanitized(h, [a, b])| == 2
  {
    assert [a][..0] == [] && Kept(h, [a]) == [] + [a];
    assert [a, b] == [a] + [b];
    KeptStep(h, [a], b);
  }

  lemma CollidingCuts(h: Hygiene, s: string, t: string)
    requires h.truncates(s) && h.truncates(t) && h.cut(s) == h.cut(t) && h.trim(h.cut(s)) != "" && h.trim(s) != h.trim(t)
    requires !h.isPoll(s) && !h.isPoll(t) && !h.isPoll(h.cut(s))
    ensures !Repeats(h, Failure(s), Failure(t))
    ensures SameError(h, Norm(h, Failure(s)), Norm(h, Failure(t)))
  {
    assert Norm(h, Failure(s)) == Failure(h.cut(s)) && Norm(h, Failure(t)) == Failure(h.cut(t));
  }

  lemma SameCut(o: Options, s: string, t: string)
    requires o == Options(7, 1, None) && NeedsCut(s, o) && NeedsCut(t, o)
    requires |s| == |t| && s[..7] == t[..7] && s[|s| - 1] == t[|t| - 1]
    ensures CutText(s, o) == CutText(t, o)
  {
    assert LastChars(s, 1) == LastChars(t, 1);
  }

  /** Two different errors that are cut to the same text: the second pass drops one of them. */
  lemma CutErrorsCollide(rd: Reading)
    requires rd.trim("error: 1z") != rd.trim("error: 2z")
    requires rd.trim(Shortened("error: 1z", Options(7, 1, None))) != ""
    ensures var h := Configured(Options(7, 1, None), rd); var es := [Failure("error: 1z"), Failure("error: 2z")];
            |Sanitized(h, es)| == 2 && Sanitized(h, Sanitized(h, es)) != Sanitized(h, es)
  {
    var o := Options(7, 1, None);
    var h := Configured(o, rd);
    var s, t := "error: 1z", "error: 2z";
    ShortAndPlain(o, s);
    ShortAndPlain(o, t);
    SameCut(o, s, t);
    CollidingCuts(h, s, t);
    DifferentErrorsStay(h, Failure(s), Failure(t));
    assert Clash(h, [Failure(s), Failure(t)], 1);
    SecondPassIff(o, rd, [Failure(s), Failure(t)]);
  }

  lemma TrimKeeps(s: string)
    requires s != "" && !IsSpace(s[0]) && !IsSpace(s[|s| - 1])
    ensures Trim(s) == s
  {
  }

  /** The host language's trim tells the two errors apart. */
  lemma TrimTellsApart()
    ensures Trim("error: 1z") != Trim("error: 2z") && Trim(Shortened("error: 1z", Options(7, 1, None))) != ""
  {
    var o := Options(7, 1, None);
    var cut := Shortened("error: 1z", o);
    TrimKeeps("error: 1z");
    TrimKeeps("error: 2z");
    assert "error: 1z"[7] != "error: 2z"[7];
    ShortAndPlain(o, "error: 1z");
    assert cut[0] == 'e' && cut[|cut| - 1] == 'z';
    TrimKeeps(cut);
  }

  /** A poll frame that is flagged as an error, and the frame's marker as an error's text after it: the second pass
      takes the one for the other and drops it. */
  lemma FlaggedPollCollides(o: Options, rd: Reading)
    requires rd.pidIn("(no new output)").None? && rd.sessionIn("(no new output)").None?
    requires rd.trim("[poll: active]") != "" && !NeedsCut("[poll: active]", o)
    ensures var h := Configured(o, rd); var es := [Failure("(no new output)"), Failure("[poll: active]")];
            |Sanitized(h, es)| == 2 && Sanitized(h, Sanitized(h, es)) != Sanitized(h, es)
  {
    var h := Configured(o, rd);
    var a, b := Failure("(no new output)"), Failure("[poll: active]");
    assert OccursAt("(no new output)", ZERO_DELTA_POLL_PATTERNS[0], 0);
    assert IsPoll(h, a);
    PidMarkerIsNoPoll(None);
    assert !IsPoll(h, b) && CompactPollMarker(None, None) == "[poll: active]";
    assert Norm(h, a) == b && Norm(h, b) == b;
    DifferentErrorsStay(h, a, b);
    assert Clash(h, [a, b], 1);
    SecondPassIff(o, rd, [a, b]);
  }

  lemma ShortAndPlain(o: Options, s: string)
    requires o == Options(7, 1, None) && |s| == 9 && NoP(s)
    ensures NeedsCut(s, o) && !IsZeroDeltaPollText(s) && !IsZeroDeltaPollText(CutText(s, o))
    ensures CutText(s, o) != ""
  {
    assert |TAG| > 9;
    forall k | 0 <= k < |ZERO_DELTA_POLL_PATTERNS| ensures !Occurs(s, ZERO_DELTA_POLL_PATTERNS[k]) {
      PatternFacts(k);
      LetterMissing(s, ZERO_DELTA_POLL_PATTERNS[k], PlaceOfP(k));
    }
    if IsZeroDeltaPollText(CutText(s, o)) { CutMakesNoPoll(s, o); }
  }

  // ----- holding back repeated polls while the transcript is written -----

  datatype PollDeduplicationState = PollDeduplicationState(lastMessageIsZeroDeltaPoll: bool, suppressedPollCount: nat)

  datatype Outcome = Outcome(block: bool, message: Message, next: PollDeduplicationState)

  predicate IsTargetTool(toolName: Option<string>) {
    toolName.None? || toolName.value in ["", "process", "exec", "task_status"]
  }

  method CompactZeroDeltaPollMessage(h: Hygiene, m: Message, toolName: Option<string>)
    returns (r: Message, changed: bool, isZeroDelta: bool)
    ensures isZeroDelta == changed == (IsTargetTool(toolName) && h.isPoll(TextOf(m.content)))
    ensures r == if changed then Compact(h, m) else m
  {
    r, changed, isZeroDelta := m, false, false;
    if IsTargetTool(toolName) {
      var text := CollectText(m.content);
      if h.isPoll(text) {
        return m.(content := WithText(m.content, h.marker(text, m.pid, m.sessionId))), true, true;
      }
    }
  }

  function Fresh(): PollDeduplicationState {
    PollDeduplicationState(false, 0)
  }

  function OutcomeOf(h: Hygiene, m: Message, s: PollDeduplicationState, toolName: Option<string>): Outcome {
    if !(IsTargetTool(toolName) && h.isPoll(TextOf(m.content))) then Outcome(false, m, Fresh())
    else if s.lastMessageIsZeroDeltaPoll then Outcome(true, m, PollDeduplicationState(true, s.suppressedPollCount + 1))
    else Outcome(false, Compact(h, m), PollDeduplicationState(true, 0))
  }

  method EvaluateMessageWriteSuppression(h: Hygiene, m: Message, s: PollDeduplicationState, toolName: Option<string>) returns (out: Outcome)
    ensures out == OutcomeOf(h, m, s, toolName)
    ensures out.block ==> s.lastMessageIsZeroDeltaPoll && out.next.lastMessageIsZeroDeltaPoll && out.message == m
    ensures out.next.lastMessageIsZeroDeltaPoll <==> IsTargetTool(toolName) && h.isPoll(TextOf(m.content))
  {
    var compacted, changed, isZeroDelta := CompactZeroDeltaPollMessage(h, m, toolName);
    if !isZeroDelta {
      return Outcome(false, m, PollDeduplicationState(false, 0));
    }
    if s.lastMessageIsZeroDeltaPoll {
      return Outcome(true, m, PollDeduplicationState(true, s.suppressedPollCount + 1));
    }
    out := Outcome(false, compacted, PollDeduplicationState(true, 0));
  }

  /** A message on its way into the transcript, and the tool that it is a result of. */
  datatype Incoming = Incoming(message: Message, toolName: Option<string>)

  predicate IsTargetPoll(h: Hygiene, x: Incoming) {
    x.message.role.ToolResult? && IsTargetTool(x.toolName) && h.isPoll(TextOf(x.message.content))
  }

  /** The plugin's hook: messages of other roles pass and reset the state. */
  function HookOutcome(h: Hygiene, x: Incoming, s: PollDeduplicationState): Outcome {
    if x.message.role.ToolResult? then OutcomeOf(h, x.message, s, x.toolName) else Outcome(false, x.message, Fresh())
  }

  /** The transcript that is written for a sequence of messages, how many were held back, and the state afterwards. */
  datatype Writing = Writing(written: seq<Incoming>, blocked: nat, state: PollDeduplicationState)

  function WriteOne(h: Hygiene, w: Writing, x: Incoming): Writing {
    var out := HookOutcome(h, x, w.state);
    if out.block then Writing(w.written, w.blocked + 1, out.next)
    else Writing(w.written + [x.(message := out.message)], w.blocked, out.next)
  }

  function Write(h: Hygiene, xs: seq<Incoming>): Writing {
    if xs == [] then Writing([], 0, Fresh())
    else
      var n := |xs| - 1;
      WriteOne(h, Write(h, xs[..n]), xs[n])
  }

  /** How many polls of targeted tools directly follow another one. */
  function RepeatedPolls(h: Hygiene, xs: seq<Incoming>): nat {
    if xs == [] then 0
    else
      var n := |xs| - 1;
      RepeatedPolls(h, xs[..n]) + (if n > 0 && IsTargetPoll(h, xs[n - 1]) && IsTargetPoll(h, xs[n]) then 1 else 0)
  }

  /** How many polls at the end directly follow another one without a break. */
  function TrailingRepeats(h: Hygiene, xs: seq<Incoming>): nat {
    if |xs| < 2 then 0
    else
      var n := |xs| - 1;
      if IsTargetPoll(h, xs[n - 1]) && IsTargetPoll(h, xs[n]) then 1 + TrailingRepeats(h, xs[..n]) else 0
  }

  /** What holds of the transcript written so far. */
  ghost predicate GuardHolds(h: Hygiene, xs: seq<Incoming>, w: Writing) {
    && |w.written| + w.blocked == |xs|
    && w.blocked == RepeatedPolls(h, xs)
    && w.state.suppressedPollCount == TrailingRepeats(h, xs)
    && w.state.lastMessageIsZeroDeltaPoll == (xs != [] && IsTargetPoll(h, xs[|xs| - 1]))
    && (w.written != [] && IsTargetPoll(h, w.written[|w.written| - 1]) ==> w.state.lastMessageIsZeroDeltaPoll)
    && RepeatedPolls(h, w.written) == 0
  }

  lemma RepeatedStep(h: Hygiene, xs: seq<Incoming>, x: Incoming)
    ensures RepeatedPolls(h, xs + [x]) ==
            RepeatedPolls(h, xs) + (if xs != [] && IsTargetPoll(h, xs[|xs| - 1]) && IsTargetPoll(h, x) then 1 else 0)
    ensures TrailingRepeats(h, xs + [x]) ==
            if xs != [] && IsTargetPoll(h, xs[|xs| - 1]) && IsTargetPoll(h, x) then 1 + TrailingRepeats(h, xs) else 0
  {
    assert (xs + [x])[..|xs|] == xs;
  }

  /** The hook holds a message back exactly when it and the message before it are polls of targeted tools. */
  lemma HookFacts(h: Hygiene, x: Incoming, s: PollDeduplicationState)
    ensures var out := HookOutcome(h, x, s);
            && (out.block <==> IsTargetPoll(h, x) && s.lastMessageIsZeroDeltaPoll)
            && (out.next.lastMessageIsZeroDeltaPoll <==> IsTargetPoll(h, x))
            && out.next.suppressedPollCount == (if out.block then s.suppressedPollCount + 1 else 0)
            && (!IsTargetPoll(h, x) ==> out.message == x.message && x.(message := out.message) == x)
  {
  }

  lemma GuardStep(h: Hygiene, xs: seq<Incoming>, w: Writing, x: Incoming)
    requires GuardHolds(h, xs, w)
    ensures GuardHolds(h, xs + [x], WriteOne(h, w, x))
  {
    hide HookOutcome, IsTargetPoll, RepeatedPolls, TrailingRepeats;
    HookFacts(h, x, w.state);
    RepeatedStep(h, xs, x);
    var out := HookOutcome(h, x, w.state);
    if !out.block { RepeatedStep(h, w.written, x.(message := out.message)); }
  }

  /** The guard holds back exactly the polls of targeted tools that follow another one, and leaves none of them. */
  lemma {:induction false} GuardLeavesNoRepeatedPolls(h: Hygiene, xs: seq<Incoming>)
    ensures GuardHolds(h, xs, Write(h, xs))
  {
    hide HookOutcome, IsTargetPoll, WriteOne;
    if xs != [] {
      var n := |xs| - 1;
      GuardLeavesNoRepeatedPolls(h, xs[..n]);
      assert xs == xs[..n] + [xs[n]];
      GuardStep(h, xs[..n], Write(h, xs[..n]), xs[n]);
    }
  }

  // ----- the guard and the sanitizer agree -----

  function AsEntries(xs: seq<Incoming>): seq<Entry> {
    seq(|xs|, i requires 0 <= i < |xs| => Json(xs[i].message, None))
  }

  ghost predicate AllTargeted(xs: seq<Incoming>) {
    forall i :: 0 <= i < |xs| ==> IsTargetTool(xs[i].toolName)
  }

  lemma {:induction false} RepeatedIsPolls(h: Hygiene, xs: seq<Incoming>)
    requires AllTargeted(xs)
    ensures RepeatedPolls(h, xs) == Polls(h, AsEntries(xs))
  {
    if xs != [] {
      var n := |xs| - 1;
      RepeatedIsPolls(h, xs[..n]);
      assert AsEntries(xs) == AsEntries(xs[..n]) + [Json(xs[n].message, None)];
      CountStep(h, AsEntries(xs[..n]), Json(xs[n].message, None));
    }
  }

  lemma {:induction false} WrittenTargeted(h: Hygiene, xs: seq<Incoming>)
    requires AllTargeted(xs)
    ensures AllTargeted(Write(h, xs).written)
  {
    if xs != [] { WrittenTargeted(h, xs[..|xs| - 1]); }
  }

  /** With targeted tools only, the guard holds back as many frames as the sanitizer would suppress, and leaves it none. */
  lemma GuardAgreesWithSanitizer(h: Hygiene, xs: seq<Incoming>)
    requires AllTargeted(xs)
    ensures Write(h, xs).blocked == Polls(h, AsEntries(xs)) && Polls(h, AsEntries(Write(h, xs).written)) == 0
  {
    GuardLeavesNoRepeatedPolls(h, xs);
    WrittenTargeted(h, xs);
    RepeatedIsPolls(h, xs);
    RepeatedIsPolls(h, Write(h, xs).written);
  }

  // ----- which ids a marker shows -----

  /** Different processes have different markers. */
  lemma PidMarkersDiffer(p: int, q: int)
    requires CompactPollMarker(Some(p), None) == CompactPollMarker(Some(q), None)
    ensures p == q
  {
    var a, b := Numeral(p), Numeral(q);
    assert a == CompactPollMarker(Some(p), None)[18..18 + |a|] && b == CompactPollMarker(Some(q), None)[18..18 + |b|];
    assert a == b;
    NumeralsDiffer(p, q);
  }

  lemma NumeralStarts(n: int)
    ensures Numeral(n) != []
    ensures if n < 0 then Numeral(n)[0] == '-' && Numeral(n)[1..] == Digits(-n) else Numeral(n)[0] != '-' && Numeral(n) == Digits(n)
  {
    hide Digits;
    var d := if n < 0 then -n else n;
    DigitsAreDigits(d);
    LastDigit(d);
  }

  lemma NumeralsDiffer(p: int, q: int)
    requires Numeral(p) == Numeral(q)
    ensures p == q
  {
    hide Numeral, Digits;
    NumeralStarts(p);
    NumeralStarts(q);
    if p < 0 { DigitsTellNumbers(-p, -q); } else { DigitsTellNumbers(p, q); }
  }

  /** The message's own ids count before those in its text, unless they are missing, zero or empty; and a process id counts
      before a session id. */
  lemma MarkerPrefers(rd: Reading, m: Message)
    ensures var text, marker := TextOf(m.content), MarkerOf(rd, m);
            && (m.pid.Some? && m.pid.value != 0 ==> marker == CompactPollMarker(m.pid, None))
            && (m.pid.None? || m.pid.value == 0 ==>
                  (rd.pidIn(text).Some? ==> marker == CompactPollMarker(rd.pidIn(text), None))
                  && (rd.pidIn(text).None? && m.pid.Some? ==> marker == CompactPollMarker(Some(0), None)))
            && (m.pid.None? && rd.pidIn(text).None? ==>
                  if m.sessionId.Some? && m.sessionId.value != "" then marker == CompactPollMarker(None, m.sessionId)
                  else if rd.sessionIn(text).Some? then marker == CompactPollMarker(None, rd.sessionIn(text))
                  else marker == CompactPollMarker(None, None))
  {
  }

  /** The phrases that mean no news are recognised in any case and anywhere in a text. */
  lemma PollPhrases(before: string, after: string)
    ensures IsZeroDeltaPollText(before + "(no new output)" + after) && IsZeroDeltaPollText(before + "Process still running" + after)
    ensures IsZeroDeltaPollText(before + "in_progress None" + after) && IsZeroDeltaPollText(before + "No new output for" + after)
  {
    hide IsZeroDeltaPollText, OccursAt;
    PhrasesAsPatterns();
    SecondPhrase();
    Recognised(before, "(no new output)", after, 0);
    Recognised(before, "Process still running", after, 1);
    Recognised(before, "in_progress None", after, 2);
    Recognised(before, "No new output for", after, 3);
  }

  lemma PhrasesAsPatterns()
    ensures OccursAt("(no new output)", ZERO_DELTA_POLL_PATTERNS[0], 0) && OccursAt("in_progress None", ZERO_DELTA_POLL_PATTERNS[2], 0)
    ensures OccursAt("No new output for", ZERO_DELTA_POLL_PATTERNS[3], 0)
  {
  }

  lemma SecondPhrase()
    ensures OccursAt("Process still running", ZERO_DELTA_POLL_PATTERNS[1], 0)
  {
  }

  lemma Recognised(before: string, phrase: string, after: string, k: nat)
    requires k < |ZERO_DELTA_POLL_PATTERNS| && OccursAt(phrase, ZERO_DELTA_POLL_PATTERNS[k], 0)
    ensures IsZeroDeltaPollText(before + phrase + after)
  {
    OccursInside(before, phrase, after, ZERO_DELTA_POLL_PATTERNS[k]);
  }
}
