/** Deduplicating plugin drift alerts with a state file that survives from tick to tick. */
module DriftAlerts {
  import opened OrderedMaps

  datatype DriftClassification = MATCH | STALE | UNRECOGNIZED_BUILD | MISSING

  datatype PluginDriftResult = PluginDriftResult(
    pluginId: string, status: DriftClassification, expectedSha: Option<string>, actualSha: Option<string>)

  datatype Record = Record(
    plugin: string, expectedSha: string, actualSha: string, status: DriftClassification,
    firstAlertedAt: int, lastSeenAt: int)

  type Signatures = Ordered<string, Record>

  datatype AlertState = AlertState(active: Signatures, lastCheckedTag: string, manifestEtag: string)

  datatype AlertDelta = AlertDelta(
    newAlerts: seq<PluginDriftResult>, suppressedAlerts: seq<PluginDriftResult>, resolvedAlerts: seq<(string, string)>)

  // ----- signatures -----

  function StatusValue(s: DriftClassification): string {
    match s
    case MATCH => "MATCH"
    case STALE => "STALE"
    case UNRECOGNIZED_BUILD => "UNRECOGNIZED_BUILD"
    case MISSING => "MISSING"
  }

  /** The first twelve characters of a checksum, or "none"; an empty checksum counts as none. */
  function Short(sha: Option<string>): string {
    if sha.None? || sha.value == "" then "none"
    else if |sha.value| <= 12 then sha.value
    else sha.value[..12]
  }

  /** The parts with a colon between each two. */
  function Joined(parts: seq<string>): string
    requires parts != []
  {
    if |parts| == 1 then parts[0] else Joined(parts[..|parts| - 1]) + ":" + parts[|parts| - 1]
  }

  function Signature(r: PluginDriftResult): string {
    Joined([r.pluginId, Short(r.expectedSha), Short(r.actualSha), StatusValue(r.status)])
  }

  lemma SignatureText(r: PluginDriftResult)
    ensures Signature(r) == ((r.pluginId + ":" + Short(r.expectedSha)) + ":" + Short(r.actualSha)) + ":" + StatusValue(r.status)
  {
    var a, b, c, d := r.pluginId, Short(r.expectedSha), Short(r.actualSha), StatusValue(r.status);
    assert [a, b, c, d][..3] == [a, b, c] && [a, b, c][..2] == [a, b] && [a, b][..1] == [a];
    assert Joined([a, b]) == a + ":" + b;
    assert Joined([a, b, c]) == (a + ":" + b) + ":" + c;
  }

  predicate NoColon(s: string) {
    forall i :: 0 <= i < |s| ==> s[i] != ':'
  }

  /** The short checksums hold no colon, as is the case for hexadecimal digests. */
  predicate Plain(r: PluginDriftResult) {
    NoColon(Short(r.expectedSha)) && NoColon(Short(r.actualSha))
  }

  /** What follows the last colon. */
  function Tail(s: string): string {
    if s == "" || s[|s| - 1] == ':' then "" else Tail(s[..|s| - 1]) + [s[|s| - 1]]
  }

  lemma {:induction false} TailAfterColon(a: string, b: string)
    requires NoColon(b)
    ensures Tail(a + ":" + b) == b
  {
    var s := a + ":" + b;
    if b != "" {
      TailAfterColon(a, b[..|b| - 1]);
      assert s[..|s| - 1] == a + ":" + b[..|b| - 1];
    }
  }

  lemma SplitAtLastColon(a: string, b: string, c: string, d: string)
    requires a + ":" + b == c + ":" + d && NoColon(b) && NoColon(d)
    ensures a == c && b == d
  {
    TailAfterColon(a, b);
    TailAfterColon(c, d);
    assert a == (a + ":" + b)[..|a|] && c == (c + ":" + d)[..|c|];
  }

  lemma StatusHasNoColon(s: DriftClassification)
    ensures NoColon(StatusValue(s))
  {
  }

  lemma StatusIsItsValue(s: DriftClassification, t: DriftClassification)
    requires StatusValue(s) == StatusValue(t)
    ensures s == t
  {
    assert |StatusValue(s)| == |StatusValue(t)|;
    assert StatusValue(s)[0] == StatusValue(t)[0];
    assert StatusValue(s)[1] == StatusValue(t)[1];
  }

  /** A signature names its plugin, its two short checksums and its status without ambiguity. */
  lemma SignatureIsUnambiguous(r: PluginDriftResult, q: PluginDriftResult)
    requires Plain(r) && Plain(q) && Signature(r) == Signature(q)
    ensures r.pluginId == q.pluginId && r.status == q.status
    ensures Short(r.expectedSha) == Short(q.expectedSha) && Short(r.actualSha) == Short(q.actualSha)
  {
    StatusHasNoColon(r.status);
    StatusHasNoColon(q.status);
    SignatureText(r);
    SignatureText(q);
    SplitAtLastColon((r.pluginId + ":" + Short(r.expectedSha)) + ":" + Short(r.actualSha), StatusValue(r.status),
                     (q.pluginId + ":" + Short(q.expectedSha)) + ":" + Short(q.actualSha), StatusValue(q.status));
    SplitAtLastColon(r.pluginId + ":" + Short(r.expectedSha), Short(r.actualSha), q.pluginId + ":" + Short(q.expectedSha), Short(q.actualSha));
    SplitAtLastColon(r.pluginId, Short(r.expectedSha), q.pluginId, Short(q.expectedSha));
    StatusIsItsValue(r.status, q.status);
  }

  // ----- one tick, as functions -----

  /** What one result does to the active signatures. */
  function Note(active: Signatures, r: PluginDriftResult, now: int): Signatures {
    if r.status == MATCH then active
    else
      var sig := Signature(r);
      active.Set(sig, if sig in active.vals then active.vals[sig].(lastSeenAt := now)
                      else Record(r.pluginId, Short(r.expectedSha), Short(r.actualSha), r.status, now, now))
  }

  /** The active signatures after the first `k` results. */
  function Noted(active: Signatures, results: seq<PluginDriftResult>, k: nat, now: int): Signatures
    requires k <= |results|
  {
    if k == 0 then active else Note(Noted(active, results, k - 1, now), results[k - 1], now)
  }

  /** Result `k` drifts and its signature is not active when its turn comes. */
  predicate IsNew(active: Signatures, results: seq<PluginDriftResult>, k: nat, now: int)
    requires k < |results|
  {
    results[k].status != MATCH && Signature(results[k]) !in Noted(active, results, k, now).vals
  }

  /** Among the first `k` items those at the chosen places, in order. */
  function Picked<T>(items: seq<T>, chosen: nat -> bool, k: nat): seq<T>
    requires k <= |items|
  {
    if k == 0 then []
    else if chosen(k - 1) then Picked(items, chosen, k - 1) + [items[k - 1]]
    else Picked(items, chosen, k - 1)
  }

  /** Where the tick has new drifts, and where it repeats old ones. */
  function NewAt(active: Signatures, results: seq<PluginDriftResult>, now: int): nat -> bool {
    (i: nat) => i < |results| && IsNew(active, results, i, now)
  }

  function RepeatAt(active: Signatures, results: seq<PluginDriftResult>, now: int): nat -> bool {
    (i: nat) => i < |results| && results[i].status != MATCH && !IsNew(active, results, i, now)
  }

  function NewAlerts(active: Signatures, results: seq<PluginDriftResult>, now: int): seq<PluginDriftResult> {
    Picked(results, NewAt(active, results, now), |results|)
  }

  function Repeats(active: Signatures, results: seq<PluginDriftResult>, now: int): seq<PluginDriftResult> {
    Picked(results, RepeatAt(active, results, now), |results|)
  }

  predicate Drifts(results: seq<PluginDriftResult>, plugin: string) {
    exists i :: 0 <= i < |results| && results[i].pluginId == plugin && results[i].status != MATCH
  }

  /** The plugins that drift among the first `k` results. */
  function Drifting(results: seq<PluginDriftResult>, k: nat): set<string>
    requires k <= |results|
  {
    if k == 0 then {}
    else if results[k - 1].status != MATCH then Drifting(results, k - 1) + {results[k - 1].pluginId}
    else Drifting(results, k - 1)
  }

  lemma {:induction false} DriftingIff(results: seq<PluginDriftResult>, k: nat, plugin: string)
    requires k <= |results|
    ensures plugin in Drifting(results, k) <==> exists i :: 0 <= i < k && results[i].pluginId == plugin && results[i].status != MATCH
  {
    if k > 0 { DriftingIff(results, k - 1, plugin); }
  }

  /** The plugin is reported and every report of it is a match. */
  predicate Matches(results: seq<PluginDriftResult>, plugin: string) {
    (exists i :: 0 <= i < |results| && results[i].pluginId == plugin) && !Drifts(results, plugin)
  }

  /** A plugin with an empty id is never recognised as clean. */
  predicate Clean(results: seq<PluginDriftResult>, plugin: string) {
    plugin != "" && Matches(results, plugin)
  }

  predicate Truthy(s: Option<string>) {
    s.Some? && s.value != ""
  }

  function ResolvedSha(r: PluginDriftResult): string {
    if Truthy(r.actualSha) then r.actualSha.value
    else if Truthy(r.expectedSha) then r.expectedSha.value
    else "unknown"
  }

  /** The first report of a plugin. */
  function FirstOf(results: seq<PluginDriftResult>, plugin: string, from: nat): Option<PluginDriftResult>
    requires from <= |results|
    decreases |results| - from
  {
    if from == |results| then None
    else if results[from].pluginId == plugin then Some(results[from])
    else FirstOf(results, plugin, from + 1)
  }

  /** The first `k` active signatures whose plugin is clean, and their notices. */
  function ResolvedSignatures(active: Signatures, results: seq<PluginDriftResult>, k: nat): seq<string>
    requires k <= |active.keys|
  {
    if k == 0 then []
    else
      ResolvedSignatures(active, results, k - 1) +
      (if Clean(results, active.vals[active.keys[k - 1]].plugin) then [active.keys[k - 1]] else [])
  }

  function Notice(results: seq<PluginDriftResult>, plugin: string): (string, string) {
    var first := FirstOf(results, plugin, 0);
    (plugin, if first.Some? then ResolvedSha(first.value) else "unknown")
  }

  function Notices(active: Signatures, results: seq<PluginDriftResult>, k: nat): seq<(string, string)>
    requires k <= |active.keys|
  {
    if k == 0 then []
    else
      var plugin := active.vals[active.keys[k - 1]].plugin;
      Notices(active, results, k - 1) + (if Clean(results, plugin) then [Notice(results, plugin)] else [])
  }

  function Removed(active: Signatures, sigs: seq<string>, k: nat): Signatures
    requires k <= |sigs|
  {
    if k == 0 then active else Removed(active, sigs, k - 1).Delete(sigs[k - 1])
  }

  /** The active signatures after a whole tick. */
  function AfterTick(active: Signatures, results: seq<PluginDriftResult>, now: int): Signatures {
    var noted := Noted(active, results, |results|, now);
    var sigs := ResolvedSignatures(noted, results, |noted.keys|);
    Removed(noted, sigs, |sigs|)
  }

  // ----- the implementation -----

  method NoteDrift(before: Signatures, r: PluginDriftResult, now: int) returns (active: Signatures, isNew: bool)
    requires r.status != MATCH
    ensures active == Note(before, r, now) && (isNew <==> Signature(r) !in before.vals)
  {
    var sig := Signature(r);
    isNew := !before.Has(sig);
    active := before.Set(sig, if !isNew then before.vals[sig].(lastSeenAt := now)
                              else Record(r.pluginId, Short(r.expectedSha), Short(r.actualSha), r.status, now, now));
  }

  method NoteResults(before: Signatures, results: seq<PluginDriftResult>, now: int)
    returns (active: Signatures, drifting: set<string>, raised: seq<PluginDriftResult>, repeats: seq<PluginDriftResult>)
    ensures active == Noted(before, results, |results|, now)
    ensures raised == NewAlerts(before, results, now) && repeats == Repeats(before, results, now)
    ensures drifting == Drifting(results, |results|)
  {
    active, drifting, raised, repeats := before, {}, [], [];
    ghost var newAt, repeatAt := NewAt(before, results, now), RepeatAt(before, results, now);
    for i := 0 to |results|
      invariant active == Noted(before, results, i, now)
      invariant raised == Picked(results, newAt, i) && repeats == Picked(results, repeatAt, i)
      invariant drifting == Drifting(results, i)
    {
      var r := results[i];
      ghost var noted := active;
      assert newAt(i) <==> r.status != MATCH && Signature(r) !in noted.vals;
      assert repeatAt(i) <==> r.status != MATCH && !newAt(i);
      if r.status != MATCH {
        drifting := drifting + {r.pluginId};
        var isNew;
        active, isNew := NoteDrift(active, r, now);
        if isNew {
          raised := raised + [r];
        } else {
          repeats := repeats + [r];
        }
      }
    }
  }

  /** Drops the signatures of the clean plugins; one notice for each. */
  method Resolve(noted: Signatures, results: seq<PluginDriftResult>, drifting: set<string>)
    returns (active: Signatures, notices: seq<(string, string)>)
    requires drifting == Drifting(results, |results|)
    ensures notices == Notices(noted, results, |noted.keys|)
    ensures var sigs := ResolvedSignatures(noted, results, |noted.keys|); active == Removed(noted, sigs, |sigs|)
  {
    var sigs: seq<string> := [];
    notices := [];
    for i := 0 to |noted.keys|
      invariant sigs == ResolvedSignatures(noted, results, i) && notices == Notices(noted, results, i)
    {
      var plugin := noted.vals[noted.keys[i]].plugin;
      FirstOfIsFirst(results, plugin, 0);
      DriftingIff(results, |results|, plugin);
      if plugin != "" && plugin !in drifting {
        var matching := FirstOf(results, plugin, 0);
        if matching.Some? && matching.value.status == MATCH {
          notices := notices + [(plugin, ResolvedSha(matching.value))];
          sigs := sigs + [noted.keys[i]];
        }
      }
    }
    active := noted;
    for i := 0 to |sigs|
      invariant active == Removed(noted, sigs, i)
    {
      active := active.Delete(sigs[i]);
    }
  }

  lemma {:induction false} FirstOfIsFirst(results: seq<PluginDriftResult>, plugin: string, from: nat)
    requires from <= |results|
    ensures FirstOf(results, plugin, from).Some? <==> exists i :: from <= i < |results| && results[i].pluginId == plugin
    ensures FirstOf(results, plugin, from).Some? ==> exists i :: from <= i < |results| && results[i] == FirstOf(results, plugin, from).value && results[i].pluginId == plugin
    decreases |results| - from
  {
    if from < |results| && results[from].pluginId != plugin { FirstOfIsFirst(results, plugin, from + 1); }
  }

  /** One tick. `stored` is the state file's content; None stands for a missing or unreadable file. */
  method ManageAlertState(results: seq<PluginDriftResult>, stored: Option<AlertState>, releaseTag: string, manifestEtag: string, now: int)
    returns (delta: AlertDelta, state: AlertState)
    ensures state == NextState(stored, Tick(results, stored.Some?, releaseTag, manifestEtag, now))
    ensures delta == DeltaOf(stored, Tick(results, stored.Some?, releaseTag, manifestEtag, now))
  {
    var active: Signatures := OMap([], map[]);
    var tag, etag := releaseTag, manifestEtag;
    if stored.Some? {
      active := stored.value.active;
      if releaseTag == "" { tag := stored.value.lastCheckedTag; }
      if manifestEtag == "" { etag := stored.value.manifestEtag; }
    }
    var noted, drifting, raised, repeats := NoteResults(active, results, now);
    var after, notices := Resolve(noted, results, drifting);
    delta := AlertDelta(raised, repeats, notices);
    state := AlertState(after, if releaseTag != "" then releaseTag else tag, if manifestEtag != "" then manifestEtag else etag);
  }

  // ----- histories -----

  /** What one tick is called with; `readable` is false when the state file of the tick before is lost. */
  datatype Tick = Tick(results: seq<PluginDriftResult>, readable: bool, releaseTag: string, manifestEtag: string, now: int)

  function ActiveBefore(stored: Option<AlertState>): Signatures {
    if stored.Some? then stored.value.active else OMap([], map[])
  }

  function NextState(stored: Option<AlertState>, t: Tick): AlertState {
    AlertState(AfterTick(ActiveBefore(stored), t.results, t.now),
               if t.releaseTag == "" && stored.Some? then stored.value.lastCheckedTag else t.releaseTag,
               if t.manifestEtag == "" && stored.Some? then stored.value.manifestEtag else t.manifestEtag)
  }

  function DeltaOf(stored: Option<AlertState>, t: Tick): AlertDelta {
    var active := ActiveBefore(stored);
    var noted := Noted(active, t.results, |t.results|, t.now);
    AlertDelta(NewAlerts(active, t.results, t.now), Repeats(active, t.results, t.now),
               Notices(noted, t.results, |noted.keys|))
  }

  /** The state file after a history of ticks, the first of which finds no file. */
  function Run(history: seq<Tick>): Option<AlertState>
    decreases |history|, 0
  {
    if history == [] then None
    else Some(NextState(Stored(history[..|history| - 1], history[|history| - 1]), history[|history| - 1]))
  }

  /** What `t` reads after `history`. */
  function Stored(history: seq<Tick>, t: Tick): Option<AlertState>
    decreases |history|, 1
  {
    if t.readable then Run(history) else None
  }

  // ----- which signatures are active -----

  /** Among the first `k` results one drifts with this signature. */
  predicate Shown(results: seq<PluginDriftResult>, k: nat, sig: string)
    requires k <= |results|
  {
    exists j :: 0 <= j < k && results[j].status != MATCH && Signature(results[j]) == sig
  }

  lemma NoteIff(active: Signatures, r: PluginDriftResult, now: int, sig: string)
    ensures sig in Note(active, r, now).vals <==> sig in active.vals || (r.status != MATCH && Signature(r) == sig)
  {
  }

  lemma ShownStep(results: seq<PluginDriftResult>, k: nat, sig: string)
    requires k < |results|
    ensures Shown(results, k + 1, sig) <==> Shown(results, k, sig) || (results[k].status != MATCH && Signature(results[k]) == sig)
  {
  }

  lemma {:induction false} NotedIff(active: Signatures, results: seq<PluginDriftResult>, k: nat, now: int, sig: string)
    requires k <= |results|
    ensures sig in Noted(active, results, k, now).vals <==> sig in active.vals || Shown(results, k, sig)
  {
    hide Note, Signature, OMap.Valid;
    if k > 0 {
      hide Shown;
      NotedIff(active, results, k - 1, now, sig);
      NoteIff(Noted(active, results, k - 1, now), results[k - 1], now, sig);
      ShownStep(results, k - 1, sig);
    }
  }

  predicate TimesKept(before: Record, after: Record, shown: bool, now: int) {
    && after.firstAlertedAt == before.firstAlertedAt
    && after.lastSeenAt == (if shown then now else before.lastSeenAt)
  }

  lemma NoteTimes(active: Signatures, r: PluginDriftResult, now: int, sig: string)
    ensures var noted := Note(active, r, now).vals; var shown := r.status != MATCH && Signature(r) == sig;
            && (sig in active.vals ==> TimesKept(active.vals[sig], noted[sig], shown, now))
            && (sig !in active.vals && sig in noted ==> shown && noted[sig].firstAlertedAt == noted[sig].lastSeenAt == now)
  {
  }

  /** A record keeps the time of its alert, and its last sighting is the last tick that showed the drift. */
  lemma {:induction false} NotedTimes(active: Signatures, results: seq<PluginDriftResult>, k: nat, now: int, sig: string)
    requires k <= |results|
    ensures var noted := Noted(active, results, k, now).vals;
            && (sig in active.vals ==> sig in noted && TimesKept(active.vals[sig], noted[sig], Shown(results, k, sig), now))
            && (sig !in active.vals && sig in noted ==> noted[sig].firstAlertedAt == noted[sig].lastSeenAt == now)
  {
    hide Signature, Note;
    if k > 0 {
      NotedTimes(active, results, k - 1, now, sig);
      NotedIff(active, results, k - 1, now, sig);
      NoteTimes(Noted(active, results, k - 1, now), results[k - 1], now, sig);
      NoteIff(Noted(active, results, k - 1, now), results[k - 1], now, sig);
      ShownStep(results, k - 1, sig);
    }
  }

  lemma {:induction false} ResolvedIff(active: Signatures, results: seq<PluginDriftResult>, k: nat, sig: string)
    requires k <= |active.keys|
    ensures sig in ResolvedSignatures(active, results, k) <==> sig in active.keys[..k] && Clean(results, active.vals[sig].plugin)
  {
    if k > 0 {
      ResolvedIff(active, results, k - 1, sig);
      assert active.keys[..k] == active.keys[..k - 1] + [active.keys[k - 1]];
    }
  }

  lemma DeleteIff(active: Signatures, gone: string, sig: string)
    ensures sig in active.Delete(gone).vals <==> sig in active.vals && sig != gone
    ensures sig in active.Delete(gone).vals ==> active.Delete(gone).vals[sig] == active.vals[sig]
  {
  }

  lemma {:induction false} RemovedIff(active: Signatures, sigs: seq<string>, k: nat, sig: string)
    requires k <= |sigs|
    ensures sig in Removed(active, sigs, k).vals <==> sig in active.vals && sig !in sigs[..k]
    ensures sig in Removed(active, sigs, k).vals ==> Removed(active, sigs, k).vals[sig] == active.vals[sig]
  {
    hide OMap.Delete, OMap.Valid;
    if k > 0 {
      RemovedIff(active, sigs, k - 1, sig);
      DeleteIff(Removed(active, sigs, k - 1), sigs[k - 1], sig);
      assert sigs[..k] == sigs[..k - 1] + [sigs[k - 1]];
    }
  }

  lemma AfterTickDrops(active: Signatures, results: seq<PluginDriftResult>, now: int, sig: string)
    ensures var noted := Noted(active, results, |results|, now).vals; var after := AfterTick(active, results, now).vals;
            && (sig in after <==> sig in noted && !Clean(results, noted[sig].plugin))
            && (sig in after ==> after[sig] == noted[sig])
  {
    var noted := Noted(active, results, |results|, now);
    var sigs := ResolvedSignatures(noted, results, |noted.keys|);
    ResolvedIff(noted, results, |noted.keys|, sig);
    RemovedIff(noted, sigs, |sigs|, sig);
    assert noted.keys[..|noted.keys|] == noted.keys && sigs[..|sigs|] == sigs;
  }

  // ----- every record names the plugin of its signature -----

  /** Drifts in `u` with the same signature are drifts of the same plugin. */
  ghost predicate Determined(u: iset<PluginDriftResult>) {
    forall r, q :: r in u && q in u && r.status != MATCH && q.status != MATCH && Signature(r) == Signature(q) ==> r.pluginId == q.pluginId
  }

  /** Every drift among the results is in `u`; matches are not restricted. */
  ghost predicate Over(u: iset<PluginDriftResult>, results: seq<PluginDriftResult>) {
    forall i :: 0 <= i < |results| && results[i].status != MATCH ==> results[i] in u
  }

  lemma PlainIsDetermined()
    ensures Determined(iset r: PluginDriftResult | Plain(r))
  {
    forall r: PluginDriftResult, q | Plain(r) && Plain(q) && Signature(r) == Signature(q) ensures r.pluginId == q.pluginId {
      SignatureIsUnambiguous(r, q);
    }
  }

  ghost predicate OwnedBy(u: iset<PluginDriftResult>, sig: string, plugin: string) {
    exists r :: r in u && r.status != MATCH && Signature(r) == sig && r.pluginId == plugin
  }

  ghost predicate Owned(u: iset<PluginDriftResult>, active: Signatures) {
    forall sig :: sig in active.vals ==> OwnedBy(u, sig, active.vals[sig].plugin)
  }

  lemma OwnerIs(u: iset<PluginDriftResult>, r: PluginDriftResult, plugin: string)
    requires Determined(u) && r in u && r.status != MATCH && OwnedBy(u, Signature(r), plugin)
    ensures plugin == r.pluginId
  {
  }

  lemma NoteOwned(u: iset<PluginDriftResult>, active: Signatures, r: PluginDriftResult, now: int)
    requires Owned(u, active) && (r.status != MATCH ==> r in u)
    ensures Owned(u, Note(active, r, now))
  {
    var m := Note(active, r, now);
    var own := Signature(r);
    if r.status != MATCH { assert OwnedBy(u, own, r.pluginId); }
    forall sig | sig in m.vals ensures OwnedBy(u, sig, m.vals[sig].plugin) {
      if sig != own { assert m.vals[sig] == active.vals[sig]; }
    }
  }

  lemma {:induction false} NotedOwned(u: iset<PluginDriftResult>, active: Signatures, results: seq<PluginDriftResult>, k: nat, now: int)
    requires k <= |results| && Owned(u, active) && Over(u, results)
    ensures Owned(u, Noted(active, results, k, now))
  {
    if k > 0 {
      NotedOwned(u, active, results, k - 1, now);
      NoteOwned(u, Noted(active, results, k - 1, now), results[k - 1], now);
    }
  }

  lemma AfterTickOwned(u: iset<PluginDriftResult>, active: Signatures, results: seq<PluginDriftResult>, now: int)
    requires Owned(u, active) && Over(u, results)
    ensures Owned(u, AfterTick(active, results, now))
  {
    NotedOwned(u, active, results, |results|, now);
    forall sig | sig in AfterTick(active, results, now).vals ensures OwnedBy(u, sig, AfterTick(active, results, now).vals[sig].plugin) {
      AfterTickDrops(active, results, now, sig);
    }
  }

  lemma AfterTickIff(u: iset<PluginDriftResult>, active: Signatures, results: seq<PluginDriftResult>, now: int, r: PluginDriftResult)
    requires Determined(u) && Owned(u, active) && Over(u, results) && r in u && r.status != MATCH
    ensures Signature(r) in AfterTick(active, results, now).vals <==>
            !Clean(results, r.pluginId) && (Signature(r) in active.vals || Shown(results, |results|, Signature(r)))
  {
    var noted := Noted(active, results, |results|, now);
    NotedOwned(u, active, results, |results|, now);
    AfterTickDrops(active, results, now, Signature(r));
    NotedIff(active, results, |results|, now, Signature(r));
    if Signature(r) in noted.vals { OwnerIs(u, r, noted.vals[Signature(r)].plugin); }
  }

  // ----- the theorem about histories -----

  /** The tick neither loses the state file nor finds the plugin clean. */
  predicate Keeps(t: Tick, plugin: string) {
    t.readable && !Clean(t.results, plugin)
  }

  /** The drift was shown in tick `i`, and neither did its plugin match nor was the state file lost since. */
  ghost predicate SeenAt(history: seq<Tick>, i: nat, r: PluginDriftResult)
    requires i < |history|
  {
    && Shown(history[i].results, |history[i].results|, Signature(r))
    && (forall u :: i < u < |history| ==> Keeps(history[u], r.pluginId))
  }

  ghost predicate Seen(history: seq<Tick>, r: PluginDriftResult) {
    exists i :: 0 <= i < |history| && SeenAt(history, i, r)
  }

  ghost predicate OverAll(u: iset<PluginDriftResult>, history: seq<Tick>) {
    forall i :: 0 <= i < |history| ==> Over(u, history[i].results)
  }

  /** A plugin that is clean in a tick shows no drift in it. */
  lemma CleanShowsNothing(u: iset<PluginDriftResult>, results: seq<PluginDriftResult>, r: PluginDriftResult)
    requires Determined(u) && Over(u, results) && r in u && r.status != MATCH && Shown(results, |results|, Signature(r))
    ensures !Matches(results, r.pluginId)
  {
  }

  lemma SeenStep(history: seq<Tick>, t: Tick, r: PluginDriftResult)
    ensures Seen(history + [t], r) <==>
            Shown(t.results, |t.results|, Signature(r)) || (Keeps(t, r.pluginId) && Seen(history, r))
  {
    var h, n := history + [t], |history|;
    if Shown(t.results, |t.results|, Signature(r)) { assert SeenAt(h, n, r); }
    if Keeps(t, r.pluginId) && Seen(history, r) {
      var i :| 0 <= i < n && SeenAt(history, i, r);
      assert SeenAt(h, i, r);
    }
    if Seen(h, r) {
      var i :| 0 <= i < |h| && SeenAt(h, i, r);
      if i < n {
        assert h[n] == t && Keeps(h[n], r.pluginId);
        forall u | i < u < n ensures Keeps(history[u], r.pluginId) { assert history[u] == h[u]; }
        assert history[i] == h[i];
        assert SeenAt(history, i, r);
      }
    }
  }

  /** The active signatures after one more tick, when those before are the ones seen. */
  lemma ActiveStep(u: iset<PluginDriftResult>, history: seq<Tick>, t: Tick, active: Signatures, r: PluginDriftResult)
    requires Determined(u) && Owned(u, active) && Over(u, t.results) && r in u && r.status != MATCH
    requires Signature(r) in active.vals <==> t.readable && Seen(history, r)
    ensures Owned(u, AfterTick(active, t.results, t.now))
    ensures Signature(r) in AfterTick(active, t.results, t.now).vals <==> Seen(history + [t], r)
  {
    SeenStep(history, t, r);
    AfterTickOwned(u, active, t.results, t.now);
    AfterTickIff(u, active, t.results, t.now, r);
    if Shown(t.results, |t.results|, Signature(r)) { CleanShowsNothing(u, t.results, r); }
  }

  lemma NothingSeen(u: iset<PluginDriftResult>, r: PluginDriftResult)
    ensures Owned(u, ActiveBefore(None)) && Signature(r) !in ActiveBefore(None).vals && !Seen([], r)
  {
  }

  /** The active signatures are those seen since their plugin's last match. */
  lemma {:induction false} ActiveIffSeen(u: iset<PluginDriftResult>, history: seq<Tick>, r: PluginDriftResult)
    requires Determined(u) && OverAll(u, history) && r in u && r.status != MATCH
    ensures Owned(u, ActiveBefore(Run(history)))
    ensures Signature(r) in ActiveBefore(Run(history)).vals <==> Seen(history, r)
  {
    hide Owned, Seen, AfterTick, Determined, Over, Signature, OMap.Valid;
    NothingSeen(u, r);
    if history != [] {
      var front, t := history[..|history| - 1], history[|history| - 1];
      ActiveIffSeen(u, front, r);
      assert history == front + [t];
      var active := ActiveBefore(Stored(front, t));
      ActiveStep(u, front, t, active, r);
      assert ActiveBefore(Run(history)) == AfterTick(active, t.results, t.now);
    }
  }

  /** Drift `k` of the tick raises an alert exactly when its signature was not seen since its plugin's last match. */
  ghost predicate AlertsIffUnseen(history: seq<Tick>, t: Tick, k: nat)
    requires k < |t.results|
  {
    var r := t.results[k];
    IsNew(ActiveBefore(Stored(history, t)), t.results, k, t.now) <==>
    !(t.readable && Seen(history, r)) && !Shown(t.results, k, Signature(r))
  }

  lemma AlertIffUnseen(u: iset<PluginDriftResult>, history: seq<Tick>, t: Tick, k: nat)
    requires Determined(u) && OverAll(u, history) && Over(u, t.results) && k < |t.results| && t.results[k].status != MATCH
    ensures AlertsIffUnseen(history, t, k)
  {
    var r := t.results[k];
    ActiveIffSeen(u, history, r);
    NotedIff(ActiveBefore(Stored(history, t)), t.results, k, t.now, Signature(r));
  }

  /** Over the drifts in `u` alerts are raised as promised, whatever the history and the tick. */
  ghost predicate AlwaysAlertsIffUnseen(u: iset<PluginDriftResult>) {
    forall history: seq<Tick>, t: Tick, k: nat ::
      OverAll(u, history) && Over(u, t.results) && k < |t.results| && t.results[k].status != MATCH ==> AlertsIffUnseen(history, t, k)
  }

  function Reports(r: PluginDriftResult, now: int): Tick {
    Tick([r], true, "", "", now)
  }

  function MatchOf(plugin: string): PluginDriftResult {
    PluginDriftResult(plugin, MATCH, None, None)
  }

  /** What a tick with one result does. */
  lemma OneResult(active: Signatures, r: PluginDriftResult, now: int, sig: string)
    ensures var noted := Note(active, r, now).vals; var after := AfterTick(active, [r], now).vals;
            && (sig in after <==> sig in noted && !(r.status == MATCH && r.pluginId != "" && noted[sig].plugin == r.pluginId))
            && (sig in after ==> after[sig] == noted[sig])
  {
    AfterTickDrops(active, [r], now, sig);
    assert [r][0] == r;
    assert Noted(active, [r], 0, now) == active && Noted(active, [r], 1, now) == Note(active, r, now);
    forall plugin ensures Clean([r], plugin) <==> plugin != "" && r.status == MATCH && r.pluginId == plugin {
      if r.pluginId == plugin { assert [r][0].pluginId == plugin; }
    }
  }

  lemma OneTickMore(history: seq<Tick>, r: PluginDriftResult, now: int)
    ensures ActiveBefore(Run(history + [Reports(r, now)])) == AfterTick(ActiveBefore(Run(history)), [r], now)
  {
    assert (history + [Reports(r, now)])[..|history|] == history;
  }

  /** The second plugin matches after the first one drifted: its next drift has been seen by signature only. */
  lemma SharedSignatureHides(r: PluginDriftResult, q: PluginDriftResult)
    requires r.status != MATCH && q.status != MATCH && Signature(r) == Signature(q) && r.pluginId != q.pluginId && q.pluginId != ""
    ensures !AlertsIffUnseen([Reports(r, 0), Reports(MatchOf(q.pluginId), 1)], Reports(q, 2), 0)
  {
    hide AfterTick;
    var sig, first, second := Signature(r), Reports(r, 0), Reports(MatchOf(q.pluginId), 1);
    var none: Signatures := OMap([], map[]);
    var a1, a2 := AfterTick(none, [r], 0), AfterTick(AfterTick(none, [r], 0), [MatchOf(q.pluginId)], 1);
    OneTickMore([], r, 0);
    OneTickMore([first], MatchOf(q.pluginId), 1);
    assert [] + [first] == [first] && [first] + [second] == [first, second];
    assert ActiveBefore(Run([])) == none && ActiveBefore(Run([first, second])) == a2;
    OneResult(none, r, 0, sig);
    assert sig in a1.vals && a1.vals[sig].plugin == r.pluginId;
    OneResult(a1, MatchOf(q.pluginId), 1, sig);
    assert Noted(a2, [q], 0, 2) == a2 && [q][0] == q;
    assert !IsNew(a2, [q], 0, 2);
    SeenStep([first], second, q);
    assert Matches([MatchOf(q.pluginId)], q.pluginId) by { assert [MatchOf(q.pluginId)][0].pluginId == q.pluginId; }
    assert !Seen([first, second], q) && !Shown([q], 0, sig);
  }

  /** Alerts are raised as promised over all histories exactly when signatures determine the plugin. */
  lemma PromiseIffDetermined(u: iset<PluginDriftResult>)
    ensures AlwaysAlertsIffUnseen(u) <==> Determined(u)
  {
    if Determined(u) {
      forall history: seq<Tick>, t: Tick, k: nat |
        OverAll(u, history) && Over(u, t.results) && k < |t.results| && t.results[k].status != MATCH
        ensures AlertsIffUnseen(history, t, k)
      {
        AlertIffUnseen(u, history, t, k);
      }
    } else {
      var r, q :| r in u && q in u && r.status != MATCH && q.status != MATCH && Signature(r) == Signature(q) && r.pluginId != q.pluginId;
      if q.pluginId != "" { NotAlways(u, r, q); } else { NotAlways(u, q, r); }
    }
  }

  lemma NotAlways(u: iset<PluginDriftResult>, r: PluginDriftResult, q: PluginDriftResult)
    requires r in u && q in u && r.status != MATCH && q.status != MATCH
    requires Signature(r) == Signature(q) && r.pluginId != q.pluginId && q.pluginId != ""
    ensures !AlwaysAlertsIffUnseen(u)
  {
    hide AlertsIffUnseen, Signature;
    SharedSignatureHides(r, q);
    var first, second := Reports(r, 0), Reports(MatchOf(q.pluginId), 1);
    var history := [first, second];
    assert Over(u, first.results) && Over(u, second.results) && Over(u, Reports(q, 2).results);
    assert OverAll(u, history);
  }

  ghost predicate UniqueIds(results: seq<PluginDriftResult>) {
    forall i, j :: 0 <= i < j < |results| ==> results[i].pluginId != results[j].pluginId
  }

  /** With unique plugin ids nothing earlier in the same tick shows the signature. */
  lemma UniqueIdsShowOnce(u: iset<PluginDriftResult>, results: seq<PluginDriftResult>, k: nat)
    requires UniqueIds(results) && Determined(u) && Over(u, results) && k < |results| && results[k].status != MATCH
    ensures !Shown(results, k, Signature(results[k]))
  {
    forall j | 0 <= j < k && results[j].status != MATCH ensures Signature(results[j]) != Signature(results[k]) {
      assert results[j] in u && results[k] in u;
    }
  }

  /** A tick resolves exactly the signatures, seen or shown now, of the plugins that it finds clean. */
  lemma ResolvesExactlyTheClean(u: iset<PluginDriftResult>, history: seq<Tick>, t: Tick, r: PluginDriftResult)
    requires Determined(u) && OverAll(u, history) && Over(u, t.results) && r in u && r.status != MATCH
    ensures var noted := Noted(ActiveBefore(Stored(history, t)), t.results, |t.results|, t.now);
            Signature(r) in ResolvedSignatures(noted, t.results, |noted.keys|) <==>
            t.readable && Seen(history, r) && Clean(t.results, r.pluginId)
  {
    var active := ActiveBefore(Stored(history, t));
    var noted := Noted(active, t.results, |t.results|, t.now);
    ActiveIffSeen(u, history, r);
    NotedOwned(u, active, t.results, |t.results|, t.now);
    NotedIff(active, t.results, |t.results|, t.now, Signature(r));
    ResolvedIff(noted, t.results, |noted.keys|, Signature(r));
    assert noted.keys[..|noted.keys|] == noted.keys;
    if Signature(r) in noted.vals { OwnerIs(u, r, noted.vals[Signature(r)].plugin); }
    if Shown(t.results, |t.results|, Signature(r)) { CleanShowsNothing(u, t.results, r); }
  }

  lemma CountAppend<T>(a: seq<T>, x: T, y: T)
    ensures multiset(a + [x])[y] == multiset(a)[y] + (if x == y then 1 else 0)
  {
  }

  /** Two disjoint choices of places cover every item that is to be covered, once. */
  lemma {:induction false} TwoPicks<T>(items: seq<T>, p: nat -> bool, q: nat -> bool, covered: T -> bool, k: nat, x: T)
    requires k <= |items|
    requires forall i: nat :: i < k ==> (covered(items[i]) <==> p(i) || q(i)) && !(p(i) && q(i))
    ensures multiset(Picked(items, p, k))[x] + multiset(Picked(items, q, k))[x] == if covered(x) then multiset(items[..k])[x] else 0
  {
    if k > 0 {
      var n, item := k - 1, items[k - 1];
      TwoPicks(items, p, q, covered, n, x);
      assert items[..k] == items[..n] + [item];
      CountAppend(items[..n], item, x);
      CountAppend(Picked(items, p, n), item, x);
      CountAppend(Picked(items, q, n), item, x);
      assert covered(item) <==> p(n) || q(n);
    }
  }

  /** New alerts and repeats are the drifts of the tick, each reported once. */
  lemma EveryDriftReportedOnce(active: Signatures, results: seq<PluginDriftResult>, now: int, r: PluginDriftResult)
    ensures multiset(NewAlerts(active, results, now))[r] + multiset(Repeats(active, results, now))[r] ==
            if r.status == MATCH then 0 else multiset(results)[r]
  {
    TwoPicks(results, NewAt(active, results, now), RepeatAt(active, results, now), (x: PluginDriftResult) => x.status != MATCH, |results|, r);
    assert results[..|results|] == results;
  }

  // ----- where the promise fails -----

  /** When a plugin with an active drift matches, the drift is resolved and dropped if the plugin's id is not empty;
      with an empty id it is neither. */
  lemma EmptyIdNeverResolves(u: iset<PluginDriftResult>, history: seq<Tick>, t: Tick, r: PluginDriftResult)
    requires Determined(u) && OverAll(u, history) && Over(u, t.results) && r in u && r.status != MATCH
    requires t.readable && Seen(history, r) && Matches(t.results, r.pluginId)
    ensures var noted := Noted(ActiveBefore(Run(history)), t.results, |t.results|, t.now);
            Signature(r) in ResolvedSignatures(noted, t.results, |noted.keys|) <==> r.pluginId != ""
    ensures Signature(r) in ActiveBefore(Run(history + [t])).vals <==> r.pluginId == ""
  {
    ResolvesExactlyTheClean(u, history, t, r);
    ActiveIffSeen(u, history, r);
    AfterTickIff(u, ActiveBefore(Run(history)), t.results, t.now, r);
    assert (history + [t])[..|history|] == history;
    assert ActiveBefore(Run(history + [t])) == AfterTick(ActiveBefore(Run(history)), t.results, t.now);
  }

  lemma ColonMoves(actual: Option<string>)
    ensures Signature(PluginDriftResult("a", STALE, Some("b:c"), actual)) == Signature(PluginDriftResult("a:b", STALE, Some("c"), actual))
  {
    SignatureText(PluginDriftResult("a", STALE, Some("b:c"), actual));
    SignatureText(PluginDriftResult("a:b", STALE, Some("c"), actual));
    assert "a" + ":" + "b:c" == "a:b" + ":" + "c";
  }

  /** With a colon in the manifest's checksum two plugins share a signature, whatever bundle both have installed. */
  lemma ColonsHideADrift(actual: Option<string>)
    ensures var r := PluginDriftResult("a", STALE, Some("b:c"), actual);
            var q := PluginDriftResult("a:b", STALE, Some("c"), actual);
            Signature(r) == Signature(q) && forall u: iset<PluginDriftResult> :: r in u && q in u ==> !AlwaysAlertsIffUnseen(u)
  {
    hide Signature, AlwaysAlertsIffUnseen;
    var r := PluginDriftResult("a", STALE, Some("b:c"), actual);
    var q := PluginDriftResult("a:b", STALE, Some("c"), actual);
    ColonMoves(actual);
    forall u: iset<PluginDriftResult> | r in u && q in u ensures !AlwaysAlertsIffUnseen(u) { NotAlways(u, r, q); }
  }

  // ----- what the state file says -----

  /** The record was made at `time` for this drift. */
  predicate RecordOf(rec: Record, r: PluginDriftResult, time: int) {
    && r.status != MATCH && rec.plugin == r.pluginId && rec.status == r.status
    && rec.expectedSha == Short(r.expectedSha) && rec.actualSha == Short(r.actualSha) && rec.firstAlertedAt == time
  }

  /** Among the first `k` results one made the record. */
  ghost predicate MadeBy(results: seq<PluginDriftResult>, k: nat, sig: string, rec: Record, time: int)
    requires k <= |results|
  {
    exists j :: 0 <= j < k && Signature(results[j]) == sig && RecordOf(rec, results[j], time)
  }

  lemma NoteRecord(active: Signatures, r: PluginDriftResult, now: int, sig: string)
    requires sig in Note(active, r, now).vals
    ensures var rec := Note(active, r, now).vals[sig]; var shown := r.status != MATCH && Signature(r) == sig;
            && (sig in active.vals ==> rec == if shown then active.vals[sig].(lastSeenAt := now) else active.vals[sig])
            && (sig !in active.vals ==> shown && RecordOf(rec, r, now) && rec.lastSeenAt == now)
  {
  }

  /** A record keeps what it says of its drift; only its last sighting moves. */
  lemma {:induction false} NotedRecord(active: Signatures, results: seq<PluginDriftResult>, k: nat, now: int, sig: string)
    requires k <= |results| && sig in Noted(active, results, k, now).vals
    ensures var rec := Noted(active, results, k, now).vals[sig];
            && (sig in active.vals ==> rec == active.vals[sig].(lastSeenAt := rec.lastSeenAt))
            && (sig !in active.vals ==> MadeBy(results, k, sig, rec, now))
  {
    hide Note, Signature, RecordOf;
    if k > 0 {
      var before := Noted(active, results, k - 1, now);
      NoteRecord(before, results[k - 1], now, sig);
      if sig in before.vals {
        NotedRecord(active, results, k - 1, now, sig);
        if sig !in active.vals { StillMadeBy(results, k - 1, sig, before.vals[sig], Noted(active, results, k, now).vals[sig], now); }
      } else {
        NotedIff(active, results, k - 1, now, sig);
        assert results[k - 1].status != MATCH && Signature(results[k - 1]) == sig;
      }
    }
  }

  lemma StillMadeBy(results: seq<PluginDriftResult>, k: nat, sig: string, rec: Record, rec': Record, time: int)
    requires k < |results| && MadeBy(results, k, sig, rec, time) && rec' == rec.(lastSeenAt := rec'.lastSeenAt)
    ensures MadeBy(results, k + 1, sig, rec', time)
  {
    var j :| 0 <= j < k && Signature(results[j]) == sig && RecordOf(rec, results[j], time);
    assert RecordOf(rec', results[j], time);
  }

  /** Tick `i` raised the alert that the record stands for; tick `u` is the last one that showed the drift. */
  ghost predicate Stems(history: seq<Tick>, sig: string, rec: Record, i: nat, u: nat) {
    && i <= u < |history| && MadeBy(history[i].results, |history[i].results|, sig, rec, history[i].now)
    && Shown(history[u].results, |history[u].results|, sig) && rec.lastSeenAt == history[u].now
    && forall v :: u < v < |history| ==> !Shown(history[v].results, |history[v].results|, sig)
  }

  lemma StemsLonger(history: seq<Tick>, t: Tick, sig: string, rec: Record, i: nat, u: nat)
    requires Stems(history, sig, rec, i, u) && !Shown(t.results, |t.results|, sig)
    ensures Stems(history + [t], sig, rec, i, u)
  {
    assert (history + [t])[i] == history[i] && (history + [t])[u] == history[u];
  }

  lemma StemsSeenAgain(history: seq<Tick>, t: Tick, sig: string, rec: Record, rec': Record, i: nat, u: nat)
    requires Stems(history, sig, rec, i, u) && Shown(t.results, |t.results|, sig)
    requires rec' == rec.(lastSeenAt := t.now)
    ensures Stems(history + [t], sig, rec', i, |history|)
  {
    var h := history + [t];
    assert h[i] == history[i] && h[|history|] == t;
    var j :| 0 <= j < |h[i].results| && Signature(h[i].results[j]) == sig && RecordOf(rec, h[i].results[j], h[i].now);
    assert RecordOf(rec', h[i].results[j], h[i].now);
  }

  lemma StemsNow(history: seq<Tick>, t: Tick, sig: string, rec: Record)
    requires MadeBy(t.results, |t.results|, sig, rec, t.now) && Shown(t.results, |t.results|, sig) && rec.lastSeenAt == t.now
    ensures Stems(history + [t], sig, rec, |history|, |history|)
  {
    assert (history + [t])[|history|] == t;
  }

  /** Every record in the state file names the plugin, the short checksums and the status of a drift with its signature,
      the time of the tick that raised its alert, and the time of the last tick that showed it. */
  lemma {:induction false} RecordsAreTrue(history: seq<Tick>, sig: string) returns (i: nat, u: nat)
    requires sig in ActiveBefore(Run(history)).vals
    ensures Stems(history, sig, ActiveBefore(Run(history)).vals[sig], i, u)
    decreases |history|
  {
    hide Stems, MadeBy, Shown, AfterTick, Noted, Signature;
    i, u := 0, 0;
    if history == [] {
      NothingActive(sig);
    } else {
      var front, t := history[..|history| - 1], history[|history| - 1];
      assert history == front + [t];
      var before := ActiveBefore(Stored(front, t));
      var noted := Noted(before, t.results, |t.results|, t.now);
      assert ActiveBefore(Run(history)) == AfterTick(before, t.results, t.now);
      AfterTickDrops(before, t.results, t.now, sig);
      NotedRecord(before, t.results, |t.results|, t.now, sig);
      NotedTimes(before, t.results, |t.results|, t.now, sig);
      NotedIff(before, t.results, |t.results|, t.now, sig);
      if sig in before.vals {
        var i0, u0 := RecordsAreTrue(front, sig);
        if Shown(t.results, |t.results|, sig) {
          StemsSeenAgain(front, t, sig, before.vals[sig], noted.vals[sig], i0, u0);
          i, u := i0, |front|;
        } else {
          StemsLonger(front, t, sig, before.vals[sig], i0, u0);
          i, u := i0, u0;
        }
      } else {
        StemsNow(front, t, sig, noted.vals[sig]);
        i, u := |front|, |front|;
      }
    }
  }

  lemma NothingActive(sig: string)
    ensures sig !in ActiveBefore(Run([])).vals
  {
  }

  /** The tick starts the state file anew, or brings a release tag of its own. */
  predicate SetsTag(history: seq<Tick>, i: nat)
    requires i < |history|
  {
    i == 0 || !history[i].readable || history[i].releaseTag != ""
  }

  predicate SetsEtag(history: seq<Tick>, i: nat)
    requires i < |history|
  {
    i == 0 || !history[i].readable || history[i].manifestEtag != ""
  }

  /** The state file remembers the last release tag and the last etag that were given, unless it was lost since. */
  lemma {:induction false} TagsAreRemembered(history: seq<Tick>, i: nat, j: nat)
    requires i < |history| && SetsTag(history, i) && forall u :: i < u < |history| ==> !SetsTag(history, u)
    requires j < |history| && SetsEtag(history, j) && forall u :: j < u < |history| ==> !SetsEtag(history, u)
    ensures Run(history).Some? && Run(history).value.lastCheckedTag == history[i].releaseTag
    ensures Run(history).value.manifestEtag == history[j].manifestEtag
  {
    TagIsRemembered(history, i);
    EtagIsRemembered(history, j);
  }

  lemma {:induction false} TagIsRemembered(history: seq<Tick>, i: nat)
    requires i < |history| && SetsTag(history, i) && forall u :: i < u < |history| ==> !SetsTag(history, u)
    ensures Run(history).Some? && Run(history).value.lastCheckedTag == history[i].releaseTag
    decreases |history|
  {
    hide AfterTick;
    var n := |history| - 1;
    var front := history[..n];
    if n == 0 { assert Run(front).None?; }
    assert Run(history) == Some(NextState(Stored(front, history[n]), history[n]));
    if i < n {
      assert !SetsTag(history, n);
      assert forall u :: 0 <= u < n ==> SetsTag(front, u) == SetsTag(history, u);
      TagIsRemembered(front, i);
    }
  }

  lemma {:induction false} EtagIsRemembered(history: seq<Tick>, i: nat)
    requires i < |history| && SetsEtag(history, i) && forall u :: i < u < |history| ==> !SetsEtag(history, u)
    ensures Run(history).Some? && Run(history).value.manifestEtag == history[i].manifestEtag
    decreases |history|
  {
    hide AfterTick;
    var n := |history| - 1;
    var front := history[..n];
    if n == 0 { assert Run(front).None?; }
    assert Run(history) == Some(NextState(Stored(front, history[n]), history[n]));
    if i < n {
      assert !SetsEtag(history, n);
      assert forall u :: 0 <= u < n ==> SetsEtag(front, u) == SetsEtag(history, u);
      EtagIsRemembered(front, i);
    }
  }

  /** The notice for a clean plugin carries the checksum of its first report, the installed one before the expected one. */
  lemma NoticeIsOfFirstReport(results: seq<PluginDriftResult>, plugin: string, i: nat)
    requires i < |results| && results[i].pluginId == plugin && forall j :: 0 <= j < i ==> results[j].pluginId != plugin
    ensures Notice(results, plugin).0 == plugin
    ensures var r, sha := results[i], Notice(results, plugin).1;
            if r.actualSha.Some? && r.actualSha.value != "" then sha == r.actualSha.value
            else if r.expectedSha.Some? && r.expectedSha.value != "" then sha == r.expectedSha.value
            else sha == "unknown"
  {
    FirstIs(results, plugin, 0, i);
  }

  lemma {:induction false} FirstIs(results: seq<PluginDriftResult>, plugin: string, from: nat, i: nat)
    requires from <= i < |results| && results[i].pluginId == plugin && forall j :: from <= j < i ==> results[j].pluginId != plugin
    ensures FirstOf(results, plugin, from) == Some(results[i])
    decreases i - from
  {
    if from < i { FirstIs(results, plugin, from + 1, i); }
  }

  /** There is one notice for every resolved signature, in the same order, and it is for that signature's plugin. */
  lemma {:induction false} OneNoticeEach(active: Signatures, results: seq<PluginDriftResult>, k: nat)
    requires k <= |active.keys|
    ensures var sigs, notices := ResolvedSignatures(active, results, k), Notices(active, results, k);
            && |notices| == |sigs|
            && forall j :: 0 <= j < |sigs| ==> sigs[j] in active.vals && notices[j] == Notice(results, active.vals[sigs[j]].plugin)
  {
    hide Notice, Clean;
    if k > 0 {
      OneNoticeEach(active, results, k - 1);
      assert active.keys[k - 1] in active.keys;
    }
  }
}
