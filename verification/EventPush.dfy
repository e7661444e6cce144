/** Pushing memory notes on tool events, with holds that keep one note from being pushed twice into a session. */
module EventPush {
  import opened OrderedMaps

  datatype DeliveryPolicy = HoldOnce | LetRun

  /** What the evaluation reads of a memory note. */
  datatype Note = Note(id: string, kind: string, deliveryPolicy: Option<string>)

  datatype HoldRecord = HoldRecord(noteId: string, kind: string, enqueuedAtMs: int, policy: DeliveryPolicy)

  /** Session key to note id to record. */
  type Holds = map<string, map<string, HoldRecord>>

  /** One evaluation: the registry's notes, which of them match the event, the event's session and the options. */
  datatype Call = Call(
    notes: seq<Note>, matches: Note -> bool, sessionKey: Option<string>, now: int, ttl: int, defaultPolicy: DeliveryPolicy)

  datatype Decision = Decision(notesToPush: seq<(Note, DeliveryPolicy)>, suppressedNoteIds: seq<string>)

  function SessionOf(c: Call): string {
    if c.sessionKey.Some? then c.sessionKey.value else "default-session"
  }

  function PolicyOf(note: Note, c: Call): DeliveryPolicy {
    if note.deliveryPolicy == Some("let-run") then LetRun
    else if note.deliveryPolicy == Some("hold-once") then HoldOnce
    else c.defaultPolicy
  }

  function SessionHolds(holds: Holds, session: string): map<string, HoldRecord> {
    if session in holds then holds[session] else map[]
  }

  /** The time of an unexpired hold. */
  function HeldSince(holds: Holds, session: string, noteId: string, now: int, ttl: int): Option<int> {
    var held := SessionHolds(holds, session);
    if noteId in held && now - held[noteId].enqueuedAtMs < ttl then Some(held[noteId].enqueuedAtMs) else None
  }

  predicate IsHeld(holds: Holds, c: Call, note: Note) {
    PolicyOf(note, c) == HoldOnce && HeldSince(holds, SessionOf(c), note.id, c.now, c.ttl).Some?
  }

  /** The note matches and no unexpired hold stops it. */
  predicate IsPushed(holds: Holds, c: Call, note: Note) {
    c.matches(note) && !IsHeld(holds, c, note)
  }

  function Decide(holds: Holds, c: Call, k: nat): Decision
    requires k <= |c.notes|
  {
    if k == 0 then Decision([], [])
    else
      var d, note := Decide(holds, c, k - 1), c.notes[k - 1];
      if !c.matches(note) then d
      else if IsHeld(holds, c, note) then d.(suppressedNoteIds := d.suppressedNoteIds + [note.id])
      else d.(notesToPush := d.notesToPush + [(note, PolicyOf(note, c))])
  }

  /** The session's holds after the first `k` notes. */
  function Recorded(holds: Holds, c: Call, k: nat): map<string, HoldRecord>
    requires k <= |c.notes|
  {
    if k == 0 then SessionHolds(holds, SessionOf(c))
    else
      var before, note := Recorded(holds, c, k - 1), c.notes[k - 1];
      if IsPushed(holds, c, note) && PolicyOf(note, c) == HoldOnce
      then before[note.id := HoldRecord(note.id, note.kind, c.now, HoldOnce)]
      else before
  }

  function Evaluated(holds: Holds, c: Call): Holds {
    holds[SessionOf(c) := Recorded(holds, c, |c.notes|)]
  }

  method EvaluateEventPush(c: Call, holds: Holds) returns (shouldPush: bool, d: Decision, newHolds: Holds)
    ensures d == Decide(holds, c, |c.notes|) && newHolds == Evaluated(holds, c)
    ensures shouldPush <==> exists i :: 0 <= i < |c.notes| && IsPushed(holds, c, c.notes[i])
  {
    var session := SessionOf(c);
    var current := SessionHolds(holds, session);
    var next := current;
    var push: seq<(Note, DeliveryPolicy)>, suppressed: seq<string> := [], [];
    for i := 0 to |c.notes|
      invariant Decision(push, suppressed) == Decide(holds, c, i) && next == Recorded(holds, c, i)
      invariant push != [] <==> exists j :: 0 <= j < i && IsPushed(holds, c, c.notes[j])
    {
      var note := c.notes[i];
      if c.matches(note) {
        var policy := PolicyOf(note, c);
        var held := policy == HoldOnce && note.id in current && !(c.now - current[note.id].enqueuedAtMs >= c.ttl);
        assert held <==> IsHeld(holds, c, note);
        if held {
          suppressed := suppressed + [note.id];
        } else {
          if policy == HoldOnce {
            next := next[note.id := HoldRecord(note.id, note.kind, c.now, policy)];
          }
          push := push + [(note, policy)];
        }
      }
    }
    shouldPush := |push| > 0;
    d := Decision(push, suppressed);
    newHolds := holds[session := next];
  }

  // ----- cleaning -----

  function CleanSession(session: map<string, HoldRecord>, now: int, ttl: int): map<string, HoldRecord> {
    map n | n in session && now - session[n].enqueuedAtMs < ttl :: session[n]
  }

  /** Only unexpired records, and no session without any. */
  function Cleaned(holds: Holds, now: int, ttl: int): Holds {
    map s | s in holds && CleanSession(holds[s], now, ttl) != map[] :: CleanSession(holds[s], now, ttl)
  }

  method CleanOneSession(session: map<string, HoldRecord>, now: int, ttl: int)
    returns (kept: map<string, HoldRecord>, changed: bool)
    ensures kept == CleanSession(session, now, ttl) && (changed <==> kept != session)
  {
    kept, changed := map[], false;
    var rest := session.Keys;
    while rest != {}
      invariant rest <= session.Keys
      invariant kept == map n | n in session && n !in rest && now - session[n].enqueuedAtMs < ttl :: session[n]
      invariant changed <==> exists n :: n in session && n !in rest && now - session[n].enqueuedAtMs >= ttl
      decreases rest
    {
      var n :| n in rest;
      rest := rest - {n};
      if now - session[n].enqueuedAtMs < ttl {
        kept := kept[n := session[n]];
      } else {
        changed := true;
      }
    }
    if !changed { assert kept == session; }
  }

  /** Returns the state it was given when there is nothing to drop, which is the same value. */
  method CleanExpiredSessionHolds(holds: Holds, now: int, ttl: int) returns (r: Holds)
    ensures r == Cleaned(holds, now, ttl)
  {
    hide CleanSession;
    var next: Holds, changed := map[], false;
    var rest := holds.Keys;
    while rest != {}
      invariant rest <= holds.Keys
      invariant next == map s | s in holds && s !in rest && CleanSession(holds[s], now, ttl) != map[] :: CleanSession(holds[s], now, ttl)
      invariant changed || forall s :: s in holds && s !in rest ==> s in next && next[s] == holds[s]
      decreases rest
    {
      var s :| s in rest;
      rest := rest - {s};
      var kept, dropped := CleanOneSession(holds[s], now, ttl);
      if dropped { changed := true; }
      if |kept| > 0 {
        next := next[s := kept];
      } else {
        changed := true;
      }
    }
    r := if changed then next else holds;
  }

  // ----- runs -----

  datatype Op = Evaluate(call: Call) | Clean(now: int)

  function TimeOf(op: Op): int {
    match op
    case Evaluate(c) => c.now
    case Clean(now) => now
  }

  /** `cleanTtl` is the time to live that cleaning is called with; evaluations bring their own. */
  function Step(holds: Holds, op: Op, cleanTtl: int): Holds {
    match op
    case Evaluate(c) => Evaluated(holds, c)
    case Clean(now) => Cleaned(holds, now, cleanTtl)
  }

  function Run(holds: Holds, ops: seq<Op>, cleanTtl: int): Holds {
    if ops == [] then holds else Step(Run(holds, ops[..|ops| - 1], cleanTtl), ops[|ops| - 1], cleanTtl)
  }

  /** Cleaning drops a record no earlier than evaluations stop heeding it. */
  predicate CleansLate(cleanTtl: int, ttl: int) {
    cleanTtl >= ttl || ttl <= 0
  }

  /** The clock never runs backwards and every evaluation uses the same time to live. */
  ghost predicate Orderly(ops: seq<Op>, ttl: int) {
    && (forall i, j :: 0 <= i <= j < |ops| ==> TimeOf(ops[i]) <= TimeOf(ops[j]))
    && (forall i :: 0 <= i < |ops| && ops[i].Evaluate? ==> ops[i].call.ttl == ttl)
  }

  /** What one step does to one note's record in one session. */
  lemma {:induction false} RecordedEffect(holds: Holds, c: Call, k: nat, id: string)
    requires k <= |c.notes|
    ensures var before, after := SessionHolds(holds, SessionOf(c)), Recorded(holds, c, k);
            if exists i :: 0 <= i < k && c.notes[i].id == id && PolicyOf(c.notes[i], c) == HoldOnce && IsPushed(holds, c, c.notes[i])
            then id in after && after[id].enqueuedAtMs == c.now
            else (id in after <==> id in before) && (id in after ==> after[id] == before[id])
  {
    if k > 0 { RecordedEffect(holds, c, k - 1, id); }
  }

  // ----- a push happens exactly when there was none within the time to live -----

  /** The call pushes a note with this id into the session under the hold-once policy. */
  ghost predicate CallPushes(holds: Holds, c: Call, session: string, id: string) {
    && SessionOf(c) == session
    && (exists k :: 0 <= k < |c.notes| && c.notes[k].id == id && PolicyOf(c.notes[k], c) == HoldOnce && IsPushed(holds, c, c.notes[k]))
  }

  ghost predicate PushesAt(ops: seq<Op>, i: nat, cleanTtl: int, session: string, id: string)
    requires i < |ops|
  {
    ops[i].Evaluate? && CallPushes(Run(map[], ops[..i], cleanTtl), ops[i].call, session, id)
  }

  function RecordTime(holds: Holds, session: string, id: string): Option<int> {
    var h := SessionHolds(holds, session);
    if id in h then Some(h[id].enqueuedAtMs) else None
  }

  /** A push renews the record; a clean drops it only when it has expired; nothing else touches it. */
  lemma StepEffect(holds: Holds, op: Op, cleanTtl: int, session: string, id: string)
    ensures var before, after := RecordTime(holds, session, id), RecordTime(Step(holds, op, cleanTtl), session, id);
            if op.Evaluate? && CallPushes(holds, op.call, session, id) then after == Some(TimeOf(op))
            else after == before || (op.Clean? && after.None? && before.Some? && op.now - before.value >= cleanTtl)
  {
    match op
    case Evaluate(c) =>
      RecordedEffect(holds, c, |c.notes|, id);
    case Clean(now) =>
      if session in holds && id in CleanSession(holds[session], now, cleanTtl) {
        assert CleanSession(holds[session], now, cleanTtl) != map[];
      }
  }

  /** After `ops`, a push that op `i` made is still recorded, or was renewed, or is at least `ttl` old. */
  ghost predicate Remembered(ops: seq<Op>, i: nat, cleanTtl: int, ttl: int, session: string, id: string)
    requires i < |ops|
  {
    var t := RecordTime(Run(map[], ops, cleanTtl), session, id);
    (t.Some? && t.value >= TimeOf(ops[i])) || TimeOf(ops[|ops| - 1]) - TimeOf(ops[i]) >= ttl
  }

  lemma OrderlyPrefix(ops: seq<Op>, n: nat, ttl: int)
    requires Orderly(ops, ttl) && n <= |ops|
    ensures Orderly(ops[..n], ttl)
  {
  }

  lemma {:induction false} PushIsRemembered(ops: seq<Op>, i: nat, cleanTtl: int, ttl: int, session: string, id: string)
    requires Orderly(ops, ttl) && CleansLate(cleanTtl, ttl) && i < |ops| && PushesAt(ops, i, cleanTtl, session, id)
    ensures Remembered(ops, i, cleanTtl, ttl, session, id)
    decreases |ops|
  {
    hide Step, RecordTime;
    var n := |ops| - 1;
    var front := ops[..n];
    StepEffect(Run(map[], front, cleanTtl), ops[n], cleanTtl, session, id);
    if i < n {
      OrderlyPrefix(ops, n, ttl);
      assert front[..i] == ops[..i] && front[i] == ops[i] && front[n - 1] == ops[n - 1];
      PushIsRemembered(front, i, cleanTtl, ttl, session, id);
    }
  }

  /** Every record in the holds stems from a push at its time. */
  lemma {:induction false} RecordHasAPush(ops: seq<Op>, cleanTtl: int, session: string, id: string) returns (i: nat)
    requires RecordTime(Run(map[], ops, cleanTtl), session, id).Some?
    ensures i < |ops| && PushesAt(ops, i, cleanTtl, session, id)
    ensures RecordTime(Run(map[], ops, cleanTtl), session, id) == Some(TimeOf(ops[i]))
  {
    var n := |ops| - 1;
    var front := ops[..n];
    StepEffect(Run(map[], front, cleanTtl), ops[n], cleanTtl, session, id);
    if ops[n].Evaluate? && CallPushes(Run(map[], front, cleanTtl), ops[n].call, session, id) {
      i := n;
    } else {
      i := RecordHasAPush(front, cleanTtl, session, id);
      assert front[..i] == ops[..i] && front[i] == ops[i];
    }
  }

  /** Among the first `j` operations one pushed the note into the session less than `ttl` before `now`. */
  ghost predicate PushedWithin(ops: seq<Op>, j: nat, cleanTtl: int, ttl: int, session: string, id: string, now: int)
    requires j <= |ops|
  {
    exists i :: 0 <= i < j && PushesAt(ops, i, cleanTtl, session, id) && now - TimeOf(ops[i]) < ttl
  }

  lemma HeldIffPushedWithin(ops: seq<Op>, j: nat, cleanTtl: int, ttl: int, session: string, id: string)
    requires Orderly(ops, ttl) && CleansLate(cleanTtl, ttl) && j < |ops|
    ensures HeldSince(Run(map[], ops[..j], cleanTtl), session, id, TimeOf(ops[j]), ttl).Some? <==>
            PushedWithin(ops, j, cleanTtl, ttl, session, id, TimeOf(ops[j]))
  {
    var front, now := ops[..j], TimeOf(ops[j]);
    OrderlyPrefix(ops, j, ttl);
    if HeldSince(Run(map[], front, cleanTtl), session, id, now, ttl).Some? {
      var i := RecordHasAPush(front, cleanTtl, session, id);
      assert front[..i] == ops[..i] && front[i] == ops[i] && PushesAt(ops, i, cleanTtl, session, id);
    }
    if PushedWithin(ops, j, cleanTtl, ttl, session, id, now) {
      var i :| 0 <= i < j && PushesAt(ops, i, cleanTtl, session, id) && now - TimeOf(ops[i]) < ttl;
      assert front[..i] == ops[..i] && front[i] == ops[i] && front[j - 1] == ops[j - 1];
      PushIsRemembered(front, i, cleanTtl, ttl, session, id);
    }
  }

  /** A matching hold-once note is pushed exactly when the session was not pushed it within the time to live. */
  lemma PushIffNotRecent(ops: seq<Op>, j: nat, cleanTtl: int, ttl: int, k: nat)
    requires Orderly(ops, ttl) && CleansLate(cleanTtl, ttl) && j < |ops| && ops[j].Evaluate? && k < |ops[j].call.notes|
    requires ops[j].call.matches(ops[j].call.notes[k]) && PolicyOf(ops[j].call.notes[k], ops[j].call) == HoldOnce
    ensures var c := ops[j].call;
            IsPushed(Run(map[], ops[..j], cleanTtl), c, c.notes[k]) <==>
            !PushedWithin(ops, j, cleanTtl, ttl, SessionOf(c), c.notes[k].id, c.now)
  {
    HeldIffPushedWithin(ops, j, cleanTtl, ttl, SessionOf(ops[j].call), ops[j].call.notes[k].id);
  }

  /** Two hold-once pushes of one note into one session are at least the time to live apart. */
  lemma PushesAreSpaced(ops: seq<Op>, i: nat, j: nat, cleanTtl: int, ttl: int, session: string, id: string)
    requires Orderly(ops, ttl) && CleansLate(cleanTtl, ttl) && i < j < |ops|
    requires PushesAt(ops, i, cleanTtl, session, id) && PushesAt(ops, j, cleanTtl, session, id)
    ensures TimeOf(ops[j]) - TimeOf(ops[i]) >= ttl
  {
    HeldIffPushedWithin(ops, j, cleanTtl, ttl, session, id);
  }

  // ----- cleaning changes no decision -----

  /** At time `now` and later the two states hold the same notes since the same times. */
  ghost predicate SameHolds(a: Holds, b: Holds, now: int, ttl: int) {
    forall s, n :: HeldSince(a, s, n, now, ttl) == HeldSince(b, s, n, now, ttl)
  }

  lemma SameLater(a: Holds, b: Holds, now: int, later: int, ttl: int)
    requires SameHolds(a, b, now, ttl) && now <= later
    ensures SameHolds(a, b, later, ttl)
  {
    forall s, n ensures HeldSince(a, s, n, later, ttl) == HeldSince(b, s, n, later, ttl) {
      assert HeldSince(a, s, n, now, ttl) == HeldSince(b, s, n, now, ttl);
    }
  }

  /** No record is from the future. */
  ghost predicate NoLater(a: Holds, now: int) {
    forall s, n :: RecordTime(a, s, n).Some? ==> RecordTime(a, s, n).value <= now
  }

  lemma NoLaterAfter(a: Holds, start: int, op: Op, cleanTtl: int)
    requires NoLater(a, start) && start <= TimeOf(op)
    ensures NoLater(Step(a, op, cleanTtl), TimeOf(op))
  {
    forall s, n | RecordTime(Step(a, op, cleanTtl), s, n).Some? ensures RecordTime(Step(a, op, cleanTtl), s, n).value <= TimeOf(op) {
      StepEffect(a, op, cleanTtl, s, n);
    }
  }

  /** With a time to live of zero or less nothing is ever held. */
  lemma NothingHeld(a: Holds, b: Holds, now: int, ttl: int)
    requires NoLater(a, now) && NoLater(b, now) && ttl <= 0
    ensures SameHolds(a, b, now, ttl)
  {
    forall s, n ensures HeldSince(a, s, n, now, ttl) == HeldSince(b, s, n, now, ttl) {
      assert RecordTime(a, s, n).Some? ==> RecordTime(a, s, n).value <= now;
      assert RecordTime(b, s, n).Some? ==> RecordTime(b, s, n).value <= now;
    }
  }

  lemma CleanKeepsHolds(a: Holds, now: int, cleanTtl: int, ttl: int)
    requires cleanTtl >= ttl
    ensures SameHolds(Cleaned(a, now, cleanTtl), a, now, ttl)
  {
    forall s, n ensures HeldSince(Cleaned(a, now, cleanTtl), s, n, now, ttl) == HeldSince(a, s, n, now, ttl) {
      StepEffect(a, Clean(now), cleanTtl, s, n);
    }
  }

  lemma {:induction false} SameDecision(a: Holds, b: Holds, c: Call, k: nat)
    requires k <= |c.notes| && SameHolds(a, b, c.now, c.ttl)
    ensures Decide(a, c, k) == Decide(b, c, k)
  {
    if k > 0 { SameDecision(a, b, c, k - 1); }
  }

  lemma SameAfter(a: Holds, b: Holds, c: Call)
    requires SameHolds(a, b, c.now, c.ttl)
    ensures SameHolds(Evaluated(a, c), Evaluated(b, c), c.now, c.ttl)
  {
    forall s, n ensures HeldSince(Evaluated(a, c), s, n, c.now, c.ttl) == HeldSince(Evaluated(b, c), s, n, c.now, c.ttl) {
      StepEffect(a, Evaluate(c), c.ttl, s, n);
      StepEffect(b, Evaluate(c), c.ttl, s, n);
      assert HeldSince(a, s, n, c.now, c.ttl) == HeldSince(b, s, n, c.now, c.ttl);
      assert CallPushes(a, c, s, n) == CallPushes(b, c, s, n);
    }
  }

  /** The decisions of the evaluations in a run, in order. */
  function Decisions(holds: Holds, ops: seq<Op>, cleanTtl: int): seq<Decision>
    decreases |ops|
  {
    if ops == [] then []
    else if ops[0].Evaluate? then
      [Decide(holds, ops[0].call, |ops[0].call.notes|)] + Decisions(Step(holds, ops[0], cleanTtl), ops[1..], cleanTtl)
    else Decisions(Step(holds, ops[0], cleanTtl), ops[1..], cleanTtl)
  }

  /** A run without its cleaning steps. */
  function Evaluations(ops: seq<Op>): seq<Op> {
    if ops == [] then []
    else if ops[0].Evaluate? then [ops[0]] + Evaluations(ops[1..])
    else Evaluations(ops[1..])
  }

  lemma {:induction false} CleaningIsInvisible(a: Holds, b: Holds, start: int, ops: seq<Op>, cleanTtl: int, ttl: int)
    requires SameHolds(a, b, start, ttl) && NoLater(a, start) && NoLater(b, start)
    requires Orderly(ops, ttl) && CleansLate(cleanTtl, ttl) && (ops != [] ==> start <= TimeOf(ops[0]))
    ensures Decisions(a, ops, cleanTtl) == Decisions(b, Evaluations(ops), cleanTtl)
    decreases |ops|
  {
    hide SameHolds, NoLater, Decide, Cleaned, Evaluated;
    if ops != [] {
      var op, rest := ops[0], ops[1..];
      SameLater(a, b, start, TimeOf(op), ttl);
      NoLaterAfter(a, start, op, cleanTtl);
      assert forall i :: 0 <= i < |rest| ==> rest[i] == ops[i + 1];
      match op
      case Evaluate(c) =>
        SameDecision(a, b, c, |c.notes|);
        SameAfter(a, b, c);
        NoLaterAfter(b, start, op, cleanTtl);
        CleaningIsInvisible(Evaluated(a, c), Evaluated(b, c), c.now, rest, cleanTtl, ttl);
        assert ([op] + Evaluations(rest))[1..] == Evaluations(rest);
      case Clean(now) =>
        StillNoLater(b, start, now);
        AfterClean(a, b, now, cleanTtl, ttl);
        CleaningIsInvisible(Cleaned(a, now, cleanTtl), b, now, rest, cleanTtl, ttl);
    }
  }

  lemma StillNoLater(a: Holds, now: int, later: int)
    requires NoLater(a, now) && now <= later
    ensures NoLater(a, later)
  {
  }

  lemma AfterClean(a: Holds, b: Holds, now: int, cleanTtl: int, ttl: int)
    requires SameHolds(a, b, now, ttl) && NoLater(Cleaned(a, now, cleanTtl), now) && NoLater(b, now) && CleansLate(cleanTtl, ttl)
    ensures SameHolds(Cleaned(a, now, cleanTtl), b, now, ttl)
  {
    if cleanTtl >= ttl {
      CleanKeepsHolds(a, now, cleanTtl, ttl);
      forall s, n ensures HeldSince(Cleaned(a, now, cleanTtl), s, n, now, ttl) == HeldSince(b, s, n, now, ttl) {
        assert HeldSince(Cleaned(a, now, cleanTtl), s, n, now, ttl) == HeldSince(a, s, n, now, ttl);
        assert HeldSince(a, s, n, now, ttl) == HeldSince(b, s, n, now, ttl);
      }
    } else {
      NothingHeld(Cleaned(a, now, cleanTtl), b, now, ttl);
    }
  }

  lemma LateCleaningChangesNothing(ops: seq<Op>, cleanTtl: int, ttl: int)
    requires Orderly(ops, ttl) && CleansLate(cleanTtl, ttl)
    ensures Decisions(map[], ops, cleanTtl) == Decisions(map[], Evaluations(ops), cleanTtl)
  {
    CleaningIsInvisible(map[], map[], if ops == [] then 0 else TimeOf(ops[0]), ops, cleanTtl, ttl);
  }

  // ----- exactly when cleaning is invisible -----

  lemma {:induction false} NothingToClean(holds: Holds, ops: seq<Op>, xTtl: int, yTtl: int)
    ensures Decisions(holds, Evaluations(ops), xTtl) == Decisions(holds, Evaluations(ops), yTtl)
    decreases |ops|
  {
    if ops != [] {
      var rest := Evaluations(ops[1..]);
      if ops[0].Evaluate? {
        assert ([ops[0]] + rest)[1..] == rest;
        NothingToClean(Evaluated(holds, ops[0].call), ops[1..], xTtl, yTtl);
      } else {
        NothingToClean(holds, ops[1..], xTtl, yTtl);
      }
    }
  }

  /** Two runs with the same evaluations decide the same, wherever either of them cleans. */
  lemma CleaningChangesNoDecision(xs: seq<Op>, ys: seq<Op>, xTtl: int, yTtl: int, ttl: int)
    requires Orderly(xs, ttl) && Orderly(ys, ttl) && Evaluations(xs) == Evaluations(ys)
    requires CleansLate(xTtl, ttl) && CleansLate(yTtl, ttl)
    ensures Decisions(map[], xs, xTtl) == Decisions(map[], ys, yTtl)
  {
    LateCleaningChangesNothing(xs, xTtl, ttl);
    LateCleaningChangesNothing(ys, yTtl, ttl);
    NothingToClean(map[], ys, xTtl, yTtl);
  }

  function OneNote(now: int, ttl: int): Call {
    Call([Note("n", "silent_trap", None)], x => true, None, now, ttl, HoldOnce)
  }

  /** Push the note, clean as soon as its record has expired for the cleaning, and evaluate at once. */
  function ForgetfulRun(cleanTtl: int, ttl: int): seq<Op> {
    var soon := if cleanTtl > 0 then cleanTtl else 0;
    [Evaluate(OneNote(0, ttl)), Clean(soon), Evaluate(OneNote(soon, ttl))]
  }

  lemma FirstPush(ttl: int)
    ensures Evaluated(map[], OneNote(0, ttl)) == map["default-session" := map["n" := HoldRecord("n", "silent_trap", 0, HoldOnce)]]
  {
    var c := OneNote(0, ttl);
    assert Recorded(map[], c, 1) == Recorded(map[], c, 0)["n" := HoldRecord("n", "silent_trap", 0, HoldOnce)];
  }

  lemma OneNoteDecision(holds: Holds, now: int, ttl: int)
    ensures Decide(holds, OneNote(now, ttl), 1) ==
            if HeldSince(holds, "default-session", "n", now, ttl).Some? then Decision([], ["n"])
            else Decision([(Note("n", "silent_trap", None), HoldOnce)], [])
  {
    assert Decide(holds, OneNote(now, ttl), 0) == Decision([], []);
  }

  /** Cleaning with a shorter time to live than the evaluations use lets a note through early. */
  lemma ShorterCleaningForgets(cleanTtl: int, ttl: int)
    requires !CleansLate(cleanTtl, ttl)
    ensures var ops := ForgetfulRun(cleanTtl, ttl);
            Orderly(ops, ttl) && Decisions(map[], ops, cleanTtl) != Decisions(map[], Evaluations(ops), cleanTtl)
  {
    hide Evaluated, Decide;
    var ops := ForgetfulRun(cleanTtl, ttl);
    var soon := ops[1].now;
    FirstPush(ttl);
    var held := Evaluated(map[], OneNote(0, ttl));
    assert CleanSession(held["default-session"], soon, cleanTtl) == map[];
    var cleaned := Cleaned(held, soon, cleanTtl);
    OneNoteDecision(held, soon, ttl);
    OneNoteDecision(cleaned, soon, ttl);
    assert Decide(held, OneNote(soon, ttl), 1) != Decide(cleaned, OneNote(soon, ttl), 1);
    ThreeOps(ops[0].call, soon, ops[2].call, cleanTtl);
  }

  lemma WithoutClean(e: Op, clean: Op, f: Op)
    requires e.Evaluate? && clean.Clean? && f.Evaluate?
    ensures Evaluations([e, clean, f]) == [e, f] && Evaluations([f]) == [f]
  {
    assert [e, clean, f][1..] == [clean, f] && [clean, f][1..] == [f] && [f][1..] == [];
    assert Evaluations([]) == [];
    assert Evaluations([f]) == [f] + Evaluations([]) == [f];
    assert Evaluations([clean, f]) == Evaluations([f]);
    assert Evaluations([e, clean, f]) == [e] + Evaluations([clean, f]) == [e] + [f] == [e, f];
  }

  lemma ThreeOps(c: Call, now: int, d: Call, cleanTtl: int)
    ensures var ops := [Evaluate(c), Clean(now), Evaluate(d)]; var held := Evaluated(map[], c);
            && Decisions(map[], ops, cleanTtl) == [Decide(map[], c, |c.notes|), Decide(Cleaned(held, now, cleanTtl), d, |d.notes|)]
            && Decisions(map[], Evaluations(ops), cleanTtl) == [Decide(map[], c, |c.notes|), Decide(held, d, |d.notes|)]
  {
    hide Evaluated, Decide, Cleaned;
    var e, f, clean := Evaluate(c), Evaluate(d), Clean(now);
    var held := Evaluated(map[], c);
    assert [e, clean, f][1..] == [clean, f] && [clean, f][1..] == [f] && [f][1..] == [] && [e, f][1..] == [f];
    forall h: Holds ensures Decisions(h, [f], cleanTtl) == [Decide(h, d, |d.notes|)] {
      assert [Decide(h, d, |d.notes|)] + [] == [Decide(h, d, |d.notes|)];
    }
    assert Decisions(held, [clean, f], cleanTtl) == Decisions(Cleaned(held, now, cleanTtl), [f], cleanTtl);
    WithoutClean(e, clean, f);
  }

  /** Cleaning is invisible to every run exactly when it heeds a time to live at least as long as the evaluations
      do, or these never hold anything. */
  lemma InvisibleIffLate(cleanTtl: int, ttl: int)
    ensures (forall ops :: Orderly(ops, ttl) ==> Decisions(map[], ops, cleanTtl) == Decisions(map[], Evaluations(ops), cleanTtl)) <==>
            cleanTtl >= ttl || ttl <= 0
  {
    if CleansLate(cleanTtl, ttl) {
      forall ops | Orderly(ops, ttl) ensures Decisions(map[], ops, cleanTtl) == Decisions(map[], Evaluations(ops), cleanTtl) {
        LateCleaningChangesNothing(ops, cleanTtl, ttl);
      }
    } else {
      ShorterCleaningForgets(cleanTtl, ttl);
    }
  }

  // ----- what an evaluation decides -----

  /** A note's own valid policy counts; anything else leaves the choice to the call's default. */
  lemma PolicyIs(note: Note, c: Call)
    ensures PolicyOf(note, c) ==
            match note.deliveryPolicy
            case Some(p) => if p == "let-run" then LetRun else if p == "hold-once" then HoldOnce else c.defaultPolicy
            case None => c.defaultPolicy
  {
  }

  /** Notes that are let run are pushed whenever they match, whatever is held. */
  lemma LetRunIsAlwaysPushed(holds: Holds, c: Call, note: Note)
    requires PolicyOf(note, c) == LetRun
    ensures IsPushed(holds, c, note) <==> c.matches(note)
  {
  }

  /** How many of the first `k` notes match, and how many of them are held. */
  function Matching(c: Call, k: nat): nat
    requires k <= |c.notes|
  {
    if k == 0 then 0 else Matching(c, k - 1) + if c.matches(c.notes[k - 1]) then 1 else 0
  }

  ghost predicate PushedAs(holds: Holds, c: Call, i: nat, x: (Note, DeliveryPolicy))
    requires i < |c.notes|
  {
    x == (c.notes[i], PolicyOf(c.notes[i], c)) && c.matches(c.notes[i]) && !IsHeld(holds, c, c.notes[i])
  }

  ghost predicate HeldBack(holds: Holds, c: Call, i: nat, id: string)
    requires i < |c.notes|
  {
    id == c.notes[i].id && c.matches(c.notes[i]) && IsHeld(holds, c, c.notes[i])
  }

  lemma DecideStep(holds: Holds, c: Call, k: nat)
    requires 0 < k <= |c.notes|
    ensures var before, d, note := Decide(holds, c, k - 1), Decide(holds, c, k), c.notes[k - 1];
            && d.notesToPush == (if c.matches(note) && !IsHeld(holds, c, note) then before.notesToPush + [(note, PolicyOf(note, c))]
                                 else before.notesToPush)
            && d.suppressedNoteIds == (if c.matches(note) && IsHeld(holds, c, note) then before.suppressedNoteIds + [note.id]
                                       else before.suppressedNoteIds)
  {
  }

  lemma {:induction false} PushedIff(holds: Holds, c: Call, k: nat, x: (Note, DeliveryPolicy))
    requires k <= |c.notes|
    ensures x in Decide(holds, c, k).notesToPush <==> exists i :: 0 <= i < k && PushedAs(holds, c, i, x)
  {
    if k > 0 {
      hide Decide, IsHeld, PolicyOf;
      DecideStep(holds, c, k);
      PushedIff(holds, c, k - 1, x);
      var note := c.notes[k - 1];
      assert PushedAs(holds, c, k - 1, x) <==> x == (note, PolicyOf(note, c)) && c.matches(note) && !IsHeld(holds, c, note);
    }
  }

  lemma {:induction false} HeldBackIff(holds: Holds, c: Call, k: nat, id: string)
    requires k <= |c.notes|
    ensures id in Decide(holds, c, k).suppressedNoteIds <==> exists i :: 0 <= i < k && HeldBack(holds, c, i, id)
  {
    if k > 0 {
      hide Decide, IsHeld, PolicyOf;
      DecideStep(holds, c, k);
      HeldBackIff(holds, c, k - 1, id);
      var note := c.notes[k - 1];
      assert HeldBack(holds, c, k - 1, id) <==> id == note.id && c.matches(note) && IsHeld(holds, c, note);
    }
  }

  lemma {:induction false} DecidedCount(holds: Holds, c: Call, k: nat)
    requires k <= |c.notes|
    ensures |Decide(holds, c, k).notesToPush| + |Decide(holds, c, k).suppressedNoteIds| == Matching(c, k)
  {
    if k > 0 { DecidedCount(holds, c, k - 1); }
  }

  /** Every matching note is either pushed, with its policy, or reported as suppressed, and no other note is either. */
  lemma MatchesAreDecided(holds: Holds, c: Call)
    ensures var d, n := Decide(holds, c, |c.notes|), |c.notes|;
            && |d.notesToPush| + |d.suppressedNoteIds| == Matching(c, n)
            && (forall x :: x in d.notesToPush <==> exists i :: 0 <= i < n && PushedAs(holds, c, i, x))
            && (forall id :: id in d.suppressedNoteIds <==> exists i :: 0 <= i < n && HeldBack(holds, c, i, id))
  {
    hide Decide, PushedAs, HeldBack;
    var n := |c.notes|;
    DecidedCount(holds, c, n);
    forall x ensures x in Decide(holds, c, n).notesToPush <==> exists i :: 0 <= i < n && PushedAs(holds, c, i, x) { PushedIff(holds, c, n, x); }
    forall id ensures id in Decide(holds, c, n).suppressedNoteIds <==> exists i :: 0 <= i < n && HeldBack(holds, c, i, id) { HeldBackIff(holds, c, n, id); }
  }

  /** Every record that an evaluation writes names its note and its policy. */
  lemma {:induction false} RecordsNameTheirNote(holds: Holds, c: Call, k: nat, id: string)
    requires k <= |c.notes| && id in Recorded(holds, c, k)
    ensures var rec, before := Recorded(holds, c, k)[id], SessionHolds(holds, SessionOf(c));
            || (id in before && rec == before[id])
            || (rec.enqueuedAtMs == c.now && rec.policy == HoldOnce && rec.noteId == id &&
                exists i :: 0 <= i < k && c.notes[i].id == id && c.notes[i].kind == rec.kind)
  {
    if k > 0 {
      var note := c.notes[k - 1];
      if id in Recorded(holds, c, k - 1) { RecordsNameTheirNote(holds, c, k - 1, id); }
    }
  }
}
