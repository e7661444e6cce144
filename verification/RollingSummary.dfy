/** Merging the sections of a compaction stream into one summary of bounded size. */
module RollingSummary {
  import opened OrderedMaps
  import opened Texts

  const MARK_START := "\n... ["
  const MARK_END := " chars of earlier compaction stream elided] ...\n"

  /** Six tenths and thirty-five hundredths of the cap, rounded down. */
  function HeadChars(cap: nat): nat {
    cap * 3 / 5
  }

  function TailChars(cap: nat): nat {
    cap * 7 / 20
  }

  function Marker(elided: nat): string {
    MARK_START + Digits(elided) + MARK_END
  }

  function Combine(rolling: string, section: string): string {
    if rolling != "" then rolling + "\n\n" + section else section
  }

  function Elided(combined: string, cap: nat): string
    requires |combined| > cap
  {
    Trim(combined[..HeadChars(cap)]) + Marker(|combined| - HeadChars(cap) - TailChars(cap)) + Trim(combined[|combined| - TailChars(cap)..])
  }

  function MergeRolling(rolling: string, section: string, cap: nat): string {
    var combined := Combine(rolling, section);
    if |combined| <= cap then combined else Elided(combined, cap)
  }

  /** The rolling summary after merging the sections one by one. */
  function MergeAll(rolling: string, sections: seq<string>, cap: nat): string {
    if sections == [] then rolling
    else MergeRolling(MergeAll(rolling, sections[..|sections| - 1], cap), sections[|sections| - 1], cap)
  }

  /** The loop of the stream; `sections` are the segments' texts, refined or not. */
  method StreamingCompact(sections: seq<string>, previousSummary: Option<string>, cap: nat) returns (rolling: string)
    ensures rolling == MergeAll(Start(previousSummary), sections, cap)
    ensures sections != [] ==> Bounded(rolling, cap)
    ensures rolling == "" <==> AllEmpty(Start(previousSummary), sections)
  {
    hide MergeRolling, Bounded, AllEmpty, Trim;
    rolling := if previousSummary.Some? && previousSummary.value != "" then Trim(previousSummary.value) else "";
    for i := 0 to |sections|
      invariant rolling == MergeAll(Start(previousSummary), sections[..i], cap)
    {
      assert sections[..i + 1][..i] == sections[..i];
      rolling := MergeRolling(rolling, sections[i], cap);
    }
    assert sections[..|sections|] == sections;
    if sections != [] {
      MergeIsBounded(MergeAll(Start(previousSummary), sections[..|sections| - 1], cap), sections[|sections| - 1], cap);
    }
    EmptyIff(Start(previousSummary), sections, cap);
  }

  function Start(previousSummary: Option<string>): string {
    if previousSummary.Some? && previousSummary.value != "" then Trim(previousSummary.value) else ""
  }

  // ----- bounded and never empty -----

  /** Within the cap, or over it by no more than the marker that says how much is missing. */
  ghost predicate Bounded(rolling: string, cap: nat) {
    |rolling| <= cap || exists elided: nat :: |rolling| <= cap + |Marker(elided)| && Contains(rolling, Marker(elided))
  }

  lemma MergeIsBounded(rolling: string, section: string, cap: nat)
    ensures Bounded(MergeRolling(rolling, section, cap), cap)
  {
    hide Trim, Marker, Combine, Contains;
    var combined := Combine(rolling, section);
    if |combined| > cap {
      SharesOfCap(cap);
      var elided := |combined| - HeadChars(cap) - TailChars(cap);
      ContainsMiddle(Trim(combined[..HeadChars(cap)]), Marker(elided), Trim(combined[|combined| - TailChars(cap)..]));
      var r := MergeRolling(rolling, section, cap);
      assert |r| == |Trim(combined[..HeadChars(cap)])| + |Marker(elided)| + |Trim(combined[|combined| - TailChars(cap)..])|;
      assert |r| <= cap + |Marker(elided)| && Contains(r, Marker(elided));
    }
  }

  predicate AllEmpty(rolling: string, sections: seq<string>) {
    rolling == "" && forall i :: 0 <= i < |sections| ==> sections[i] == ""
  }

  /** The summary is empty only when there was nothing to summarise. */
  lemma {:induction false} EmptyIff(rolling: string, sections: seq<string>, cap: nat)
    ensures MergeAll(rolling, sections, cap) == "" <==> AllEmpty(rolling, sections)
  {
    hide MergeRolling;
    if sections != [] {
      var n := |sections| - 1;
      EmptyIff(rolling, sections[..n], cap);
      MergeEmptyIff(MergeAll(rolling, sections[..n], cap), sections[n], cap);
      assert sections == sections[..n] + [sections[n]];
    }
  }

  lemma MergeEmptyIff(rolling: string, section: string, cap: nat)
    ensures MergeRolling(rolling, section, cap) == "" <==> rolling == "" && section == ""
  {
    var combined := Combine(rolling, section);
    if |combined| > cap {
      assert |Marker(|combined| - HeadChars(cap) - TailChars(cap))| > 0;
    }
  }

  // ----- nothing is dropped while everything fits -----

  /** All sections, one after the other, with nothing left out. */
  function Joined(rolling: string, sections: seq<string>): string {
    if sections == [] then rolling else Combine(Joined(rolling, sections[..|sections| - 1]), sections[|sections| - 1])
  }

  /** Merging section `i` goes over the cap. */
  predicate ElidesAt(rolling: string, sections: seq<string>, cap: nat, i: nat)
    requires i < |sections|
  {
    |Combine(MergeAll(rolling, sections[..i], cap), sections[i])| > cap
  }

  lemma CombineGrows(rolling: string, section: string)
    ensures |rolling| <= |Combine(rolling, section)|
  {
  }

  /** As long as everything fits, merging only joins. */
  lemma {:induction false} MergeIsJoin(rolling: string, sections: seq<string>, cap: nat)
    requires sections == [] || |Joined(rolling, sections)| <= cap
    ensures MergeAll(rolling, sections, cap) == Joined(rolling, sections)
  {
    hide Combine;
    if sections != [] {
      var n := |sections| - 1;
      CombineGrows(Joined(rolling, sections[..n]), sections[n]);
      MergeIsJoin(rolling, sections[..n], cap);
    }
  }

  lemma {:induction false} JoinedGrows(rolling: string, sections: seq<string>, k: nat)
    requires k <= |sections|
    ensures |Joined(rolling, sections[..k])| <= |Joined(rolling, sections)|
    decreases |sections|
  {
    hide Combine;
    var n := |sections| - 1;
    if k == |sections| {
      assert sections[..k] == sections;
    } else {
      JoinedGrows(rolling, sections[..n], k);
      CombineGrows(Joined(rolling, sections[..n]), sections[n]);
      assert sections[..n][..k] == sections[..k];
    }
  }

  /** Some merge elides exactly when the sections joined do not fit the cap. */
  lemma ElidesIff(rolling: string, sections: seq<string>, cap: nat)
    requires sections != []
    ensures (exists i :: 0 <= i < |sections| && ElidesAt(rolling, sections, cap, i)) <==> |Joined(rolling, sections)| > cap
  {
    if |Joined(rolling, sections)| <= cap {
      forall i | 0 <= i < |sections| ensures !ElidesAt(rolling, sections, cap, i) { FitsAt(rolling, sections, cap, i); }
    } else {
      var i := FirstTooLong(rolling, sections, cap);
      assert ElidesAt(rolling, sections, cap, i);
    }
  }

  lemma FitsAt(rolling: string, sections: seq<string>, cap: nat, i: nat)
    requires i < |sections| && |Joined(rolling, sections)| <= cap
    ensures !ElidesAt(rolling, sections, cap, i)
  {
    hide Combine, MergeAll;
    JoinedGrows(rolling, sections, i + 1);
    assert sections[..i + 1][..i] == sections[..i];
    if i > 0 { JoinedGrows(rolling, sections, i); }
    MergeIsJoin(rolling, sections[..i], cap);
  }

  lemma {:induction false} FirstTooLong(rolling: string, sections: seq<string>, cap: nat) returns (i: nat)
    requires sections != [] && |Joined(rolling, sections)| > cap
    ensures i < |sections| && ElidesAt(rolling, sections, cap, i)
  {
    hide Combine;
    var n := |sections| - 1;
    if n > 0 && |Joined(rolling, sections[..n])| > cap {
      i := FirstTooLong(rolling, sections[..n], cap);
      assert sections[..n][..i] == sections[..i];
    } else {
      i := n;
      MergeIsJoin(rolling, sections[..n], cap);
    }
  }

  lemma EndOfSum(front: string, section: string, n: nat)
    requires n <= |section|
    ensures (front + section)[|front + section| - n..] == section[|section| - n..]
  {
  }

  lemma EndsWithLast(a: string, b: string, c: string)
    ensures var r := a + b + c; |c| <= |r| && r[|r| - |c|..] == c
  {
  }

  /** After an elision the summary still ends with the end of the newest section, up to surrounding white space. */
  lemma NewestEndSurvives(rolling: string, section: string, cap: nat)
    requires |Combine(rolling, section)| > cap && TailChars(cap) <= |section|
    ensures var tail := Trim(section[|section| - TailChars(cap)..]); var r := MergeRolling(rolling, section, cap);
            |tail| <= |r| && r[|r| - |tail|..] == tail
  {
    hide Trim, Marker;
    var combined, n := Combine(rolling, section), TailChars(cap);
    EndOfSum(if rolling != "" then rolling + "\n\n" else "", section, n);
    assert combined == (if rolling != "" then rolling + "\n\n" else "") + section;
    EndsWithLast(Trim(combined[..HeadChars(cap)]), Marker(|combined| - HeadChars(cap) - n), Trim(combined[|combined| - n..]));
  }

  // ----- what an elision keeps -----

  /** Head and tail are six tenths and thirty-five hundredths of the cap, rounded down, and fit it together. */
  lemma SharesOfCap(cap: nat)
    ensures HeadChars(cap) * 10 <= 6 * cap < HeadChars(cap) * 10 + 10
    ensures TailChars(cap) * 100 <= 35 * cap < TailChars(cap) * 100 + 100
    ensures HeadChars(cap) + TailChars(cap) <= cap
  {
  }

  /** After an elision the summary begins with the oldest part, ends with the newest, and tells in between exactly how
      many characters are missing. */
  lemma ElisionAccountsForAll(rolling: string, section: string, cap: nat) returns (head: string, middle: string, tail: string)
    requires |Combine(rolling, section)| > cap
    ensures Combine(rolling, section) == head + middle + tail && |head| == HeadChars(cap) && |tail| == TailChars(cap)
    ensures MergeRolling(rolling, section, cap) == Trim(head) + Marker(|middle|) + Trim(tail)
  {
    var combined := Combine(rolling, section);
    SharesOfCap(cap);
    head, tail := combined[..HeadChars(cap)], combined[|combined| - TailChars(cap)..];
    middle := combined[HeadChars(cap)..|combined| - TailChars(cap)];
  }

  /** The marker tells how many characters are missing. */
  lemma MarkerTellsCount(a: nat, b: nat)
    requires Marker(a) == Marker(b)
    ensures a == b
  {
    MarkerParts(a);
    MarkerParts(b);
    DigitsTellNumbers(a, b);
  }

  lemma MarkerParts(n: nat)
    ensures Marker(n)[|MARK_START|..|Marker(n)| - |MARK_END|] == Digits(n)
  {
  }

  /** As long as the old summary is no shorter than the head, its beginning survives. */
  lemma OldestStartSurvives(rolling: string, section: string, cap: nat)
    requires |Combine(rolling, section)| > cap && HeadChars(cap) <= |rolling|
    ensures Trim(rolling[..HeadChars(cap)]) <= MergeRolling(rolling, section, cap)
  {
    hide Trim, Marker;
    if rolling != "" { assert Combine(rolling, section)[..HeadChars(cap)] == rolling[..HeadChars(cap)]; }
    else { assert Combine(rolling, section)[..HeadChars(cap)] == rolling; }
  }

  function Lengths(sections: seq<string>): nat {
    if sections == [] then 0 else Lengths(sections[..|sections| - 1]) + |sections[|sections| - 1]|
  }

  /** Joining keeps every section whole and puts two characters, a blank line, before each one after the first. */
  lemma {:induction false} JoinedKeepsAll(rolling: string, sections: seq<string>)
    requires rolling != ""
    ensures rolling <= Joined(rolling, sections)
    ensures |Joined(rolling, sections)| == |rolling| + Lengths(sections) + 2 * |sections|
    ensures forall i :: 0 <= i < |sections| ==> Contains(Joined(rolling, sections), "\n\n" + sections[i])
  {
    if sections != [] {
      var n := |sections| - 1;
      JoinedKeepsAll(rolling, sections[..n]);
      var before := Joined(rolling, sections[..n]);
      ContainsMiddle(before, "\n\n" + sections[n], "");
      assert before + ("\n\n" + sections[n]) == Joined(rolling, sections) == before + ("\n\n" + sections[n]) + "";
      forall i | 0 <= i < n ensures Contains(Joined(rolling, sections), "\n\n" + sections[i]) {
        assert sections[..n][i] == sections[i];
        ContainsLonger(before, "\n\n" + sections[n], "\n\n" + sections[i]);
      }
    }
  }

  /** Without an old summary the first section takes its place. */
  lemma {:induction false} JoinedFromNothing(sections: seq<string>)
    requires sections != []
    ensures Joined("", sections) == Joined(sections[0], sections[1..])
  {
    var n := |sections| - 1;
    if n == 0 {
      assert Joined("", sections[..0]) == "";
    } else {
      JoinedFromNothing(sections[..n]);
      assert sections[..n][1..] == sections[1..][..n - 1];
    }
  }

  lemma ContainsLonger(s: string, more: string, t: string)
    requires Contains(s, t)
    ensures Contains(s + more, t)
  {
    var i :| 0 <= i <= |s| && IsAt(s, t, i);
    assert IsAt(s + more, t, i);
  }

  /** The stream starts from the previous summary without its surrounding white space. */
  lemma StartIsTrimmed(previousSummary: Option<string>) returns (front: string, back: string)
    ensures AllSpace(front) && AllSpace(back)
    ensures (if previousSummary.Some? then previousSummary.value else "") == front + Start(previousSummary) + back
    ensures var s := Start(previousSummary); s != "" ==> !IsSpace(s[0]) && !IsSpace(s[|s| - 1])
  {
    if previousSummary.Some? && previousSummary.value != "" {
      front, back := TrimFacts(previousSummary.value);
    } else {
      front, back := "", "";
    }
  }
}
