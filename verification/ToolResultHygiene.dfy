/** Cutting a long tool result to its head and tail. */
module ToolResultHygiene {
  import opened OrderedMaps
  import opened Texts

  const OMISSION_NOTICE_PREFIX := "\n\n[... "
  const TAG := "characters truncated by oc-session-guard"

  datatype Options = Options(headChars: nat, tailChars: nat, maxToolResultChars: Option<nat>) {
    function Threshold(): nat {
      if maxToolResultChars.Some? then maxToolResultChars.value else headChars + tailChars
    }
  }

  /** Everything of the notice before the tag, and everything after it. */
  function NoticeStart(omitted: nat): string {
    OMISSION_NOTICE_PREFIX + Digits(omitted) + " "
  }

  const NOTICE_END := " ...]\n\n"

  function OmissionNotice(omitted: nat): string {
    NoticeStart(omitted) + TAG + NOTICE_END
  }

  /** The text is longer than the threshold and than head and tail together, and holds no notice yet. */
  predicate NeedsCut(text: string, o: Options) {
    |text| > o.Threshold() && !Contains(text, TAG) && |text| > o.headChars + o.tailChars
  }

  /** The last `n` characters as the source takes them: for zero that is the whole text. */
  function LastChars(text: string, n: nat): string
    requires n <= |text|
  {
    if n == 0 then text else text[|text| - n..]
  }

  function CutText(text: string, o: Options): string
    requires NeedsCut(text, o)
  {
    text[..o.headChars] + OmissionNotice(|text| - (o.headChars + o.tailChars)) + LastChars(text, o.tailChars)
  }

  function Shortened(text: string, o: Options): string {
    if NeedsCut(text, o) then CutText(text, o) else text
  }

  lemma NoticeHoldsTag(omitted: nat, head: string, tail: string)
    ensures Contains(head + OmissionNotice(omitted) + tail, TAG)
  {
    var start := NoticeStart(omitted);
    ContainsMiddle(head + start, TAG, NOTICE_END + tail);
    assert (head + start) + TAG + (NOTICE_END + tail) == head + (start + TAG + NOTICE_END) + tail;
  }

  /** A cut text carries a notice, so it is not cut again, and it differs from the text that was cut. */
  lemma CutIsFinal(text: string, o: Options)
    requires NeedsCut(text, o)
    ensures !NeedsCut(CutText(text, o), o) && CutText(text, o) != text
    ensures Shortened(CutText(text, o), o) == CutText(text, o)
  {
    NoticeHoldsTag(|text| - (o.headChars + o.tailChars), text[..o.headChars], LastChars(text, o.tailChars));
  }

  /** What cutting keeps: the head, the tail, and the number of characters left out in between. */
  lemma CutKeepsEnds(text: string, o: Options)
    requires NeedsCut(text, o) && o.tailChars > 0
    ensures var r, n := CutText(text, o), |text| - (o.headChars + o.tailChars);
            && |r| == o.headChars + |OmissionNotice(n)| + o.tailChars
            && r[..o.headChars] == text[..o.headChars]
            && r[|r| - o.tailChars..] == text[|text| - o.tailChars..]
            && |text[o.headChars..|text| - o.tailChars]| == n
  {
    var r, n := CutText(text, o), |text| - (o.headChars + o.tailChars);
    var head, notice, tail := text[..o.headChars], OmissionNotice(n), text[|text| - o.tailChars..];
    assert r == head + notice + tail;
    assert r[..|head|] == head;
    assert r[|head + notice|..] == tail;
  }

  /** Cutting makes a text shorter exactly when a tail is kept and the notice is shorter than what it replaces. */
  lemma CutShortensIff(text: string, o: Options)
    requires NeedsCut(text, o)
    ensures |CutText(text, o)| < |text| <==>
            o.tailChars > 0 && |OmissionNotice(|text| - (o.headChars + o.tailChars))| < |text| - (o.headChars + o.tailChars)
  {
    var n := |text| - (o.headChars + o.tailChars);
    assert |CutText(text, o)| == o.headChars + |OmissionNotice(n)| + (if o.tailChars == 0 then |text| else o.tailChars);
    assert |OmissionNotice(n)| >= 1;
  }

  /** Without a tail nothing is left out: the whole text follows the notice. */
  lemma NoTailKeepsEverything(text: string, o: Options)
    requires NeedsCut(text, o) && o.tailChars == 0
    ensures var r := CutText(text, o); |r| > |text| && r[|r| - |text|..] == text
  {
    var front := text[..o.headChars] + OmissionNotice(|text| - o.headChars);
    assert front + text == CutText(text, o);
    assert |OmissionNotice(|text| - o.headChars)| >= 1;
  }

  /** The result is the text itself, or keeps its first and last characters and tells between them how many of its
      characters are missing. It is never cut a second time. */
  method TruncateHeadTail(text: string, o: Options) returns (r: string, truncated: bool, omitted: nat)
    ensures r == Shortened(text, o) && (truncated <==> r != text) && !NeedsCut(r, o)
    ensures truncated <==> |text| > o.Threshold() && |text| > o.headChars + o.tailChars && !Contains(text, TAG)
    ensures if truncated then |text| == o.headChars + omitted + o.tailChars else omitted == 0
    ensures truncated ==> text[..o.headChars] <= r && Contains(r, OmissionNotice(omitted)) && Contains(r, TAG)
    ensures truncated && o.tailChars > 0 ==>
              && |r| == o.headChars + |OmissionNotice(omitted)| + o.tailChars
              && r[|r| - o.tailChars..] == text[|text| - o.tailChars..]
    ensures truncated && o.tailChars == 0 ==> |r| > |text| && r[|r| - |text|..] == text
  {
    if |text| <= o.Threshold() { return text, false, 0; }
    if Contains(text, TAG) { return text, false, 0; }
    if |text| - (o.headChars + o.tailChars) <= 0 { return text, false, 0; }
    omitted := |text| - (o.headChars + o.tailChars);
    r, truncated := text[..o.headChars] + OmissionNotice(omitted) + LastChars(text, o.tailChars), true;
    CutIsFinal(text, o);
    NoticeHoldsTag(omitted, text[..o.headChars], LastChars(text, o.tailChars));
    ContainsMiddle(text[..o.headChars], OmissionNotice(omitted), LastChars(text, o.tailChars));
    if o.tailChars > 0 { CutKeepsEnds(text, o); } else { NoTailKeepsEverything(text, o); }
  }

  /** The notice tells how many characters are missing. */
  lemma NoticeTellsCount(a: nat, b: nat)
    requires OmissionNotice(a) == OmissionNotice(b)
    ensures a == b
  {
    var s, p, e := OmissionNotice(a), |OMISSION_NOTICE_PREFIX|, |" " + TAG + NOTICE_END|;
    NoticeParts(a);
    NoticeParts(b);
    assert Digits(a) == s[p..|s| - e] == Digits(b);
    DigitsTellNumbers(a, b);
  }

  lemma NoticeParts(n: nat)
    ensures var s, p, e := OmissionNotice(n), |OMISSION_NOTICE_PREFIX|, |" " + TAG + NOTICE_END|;
            p + e <= |s| && s[p..|s| - e] == Digits(n)
  {
    assert OmissionNotice(n) == OMISSION_NOTICE_PREFIX + Digits(n) + (" " + TAG + NOTICE_END);
  }
}
