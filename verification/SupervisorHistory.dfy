/** What a run of the supervisor owes to the operations on each key, and to its own event log. */
module SupervisorHistory {
  import opened OrderedMaps
  import opened Supervisor

  // ----- the lifecycle table, event by event -----

  /** Every event is accepted in exactly these states and leads to exactly this one. */
  lemma TableByEvent(s: Lifecycle, e: Trigger)
    ensures Transitions(s, e).Some? <==>
            match e
            case Dispatch => s == Created
            case Start => s == Dispatched
            case Yield => s == Running
            case ChildDone => s == Yielding
            case Finish => s == Running
            case Error => s == Dispatched || s == Running
            case Timeout => s == Dispatched || s == Running
            case ParentAbort => s == Created || s == Dispatched || s == Running || s == Yielding
            case Archive => IsTerminal(s)
    ensures Transitions(s, e).Some? ==>
            Transitions(s, e).value ==
            match e
            case Dispatch => Dispatched
            case Start => Running
            case Yield => Yielding
            case ChildDone => Running
            case Finish => Completed
            case Error => Failed
            case Timeout => TimedOut
            case ParentAbort => Aborted
            case Archive => Archived
  {
  }

  /** Progress through a lifecycle; only a yielding actor goes back. */
  function Stage(s: Lifecycle): nat {
    match s
    case Created => 0
    case Dispatched => 1
    case Running => 2
    case Yielding => 3
    case Archived => 5
    case _ => 4
  }

  /** The table moves forward, except from yielding back to running; a terminal state leaves for the archive only, and
      nothing leaves that. */
  lemma TableMovesOn(s: Lifecycle, e: Trigger)
    requires Transitions(s, e).Some?
    ensures var t := Transitions(s, e).value;
            && (Stage(s) < Stage(t) || (s == Yielding && t == Running && e == ChildDone))
            && (IsTerminal(s) ==> t == Archived) && s != Archived && t != Created
  {
  }

  // ----- one key at a time -----

  /** A key as its own operations leave it. */
  datatype Life = Unknown | Alive(state: Lifecycle, retries: nat)

  function LifeIn(s: State, key: string): Life {
    if key in s.actors then Alive(s.actors[key].state, s.actors[key].retryCount) else Unknown
  }

  /** What one operation means for a key: operations on other keys mean nothing to it. */
  function LifeAfter(maxRetries: nat, life: Life, op: Op, key: string): Life {
    match op
    case OpSpawn(k, _) => if k == key && life.Unknown? then Alive(Dispatched, 0) else life
    case OpSignal(k, e) => if k == key && life.Alive? then life.(state := TransitionSubagent(life.state, e)) else life
    case OpRestart(k, _) =>
      if k != key || life.Unknown? then life
      else if life.retries < maxRetries then Alive(Dispatched, life.retries + 1)
      else if IsTerminal(life.state) then life
      else life.(state := TransitionSubagent(life.state, Error))
    case OpReap(k) => if k == key then Unknown else life
    case OpStop(keys) => if key in keys then Unknown else life
  }

  function LifeOf(maxRetries: nat, ops: seq<Op>, key: string): Life {
    if ops == [] then Unknown else LifeAfter(maxRetries, LifeOf(maxRetries, ops[..|ops| - 1], key), ops[|ops| - 1], key)
  }

  lemma {:induction false} ReapAllEnds(s: State, keys: seq<string>, key: string)
    ensures LifeIn(ReapAll(s, keys), key) == if key in keys then Unknown else LifeIn(s, key)
  {
    if keys != [] {
      var n := |keys| - 1;
      ReapAllEnds(s, keys[..n], key);
      assert keys == keys[..n] + [keys[n]];
    }
  }

  lemma StepLife(s: State, op: Op, key: string)
    ensures LifeIn(Step(s, op), key) == LifeAfter(s.maxRetries, LifeIn(s, key), op, key)
  {
    match op
    case OpStop(keys) => ReapAllEnds(s, keys, key);
    case _ =>
  }

  /** In every run each actor's state and retry count are what the operations on its own key make them: a spawn starts
      at zero, every restart counts one up until the limit refuses it, and a reap ends the count. */
  lemma {:induction false} EveryKeyOnItsOwn(maxRetries: nat, ops: seq<Op>, key: string)
    ensures LifeIn(Exec(Initial(maxRetries), ops), key) == LifeOf(maxRetries, ops, key)
  {
    if ops != [] {
      hide Step, LifeAfter, LifeIn;
      var n := |ops| - 1;
      EveryKeyOnItsOwn(maxRetries, ops[..n], key);
      KeepsLimit(maxRetries, ops[..n]);
      StepLife(Exec(Initial(maxRetries), ops[..n]), ops[n], key);
    } else {
      NobodyYet(maxRetries, key);
    }
  }

  lemma NobodyYet(maxRetries: nat, key: string)
    ensures LifeIn(Initial(maxRetries), key) == Unknown
  {
  }

  // ----- the event log -----

  /** Restarts of a key that the log shows since it was last spawned. */
  function RestartsShown(events: seq<Event>, key: string): nat {
    if events == [] then 0
    else
      var x, before := events[|events| - 1], RestartsShown(events[..|events| - 1], key);
      if x.key != key then before
      else if x.kind == Spawned then 0
      else if x.kind == Restarted then before + 1
      else before
  }

  function CountKind(events: seq<Event>, kind: Kind): nat {
    if events == [] then 0
    else CountKind(events[..|events| - 1], kind) + (if events[|events| - 1].kind == kind then 1 else 0)
  }

  /** An event's kind tells what happened. */
  ghost predicate KindFits(x: Event) {
    && (x.kind == Spawned ==> x.from == Created && x.to == Dispatched && x.retryCount == 0)
    && (x.kind == Restarted ==> x.from == Created && x.to == Dispatched && x.retryCount > 0)
    && (x.kind == Finished <==> x.to == Completed)
    && (x.kind == Crashed <==> x.to == Failed)
    && (x.kind == Expired <==> x.to == TimedOut)
    && (x.to == Dispatched && x.kind != Reaped ==> x.kind == Spawned || x.kind == Restarted)
  }

  /** The log agrees with the actors and the counters. */
  ghost predicate Logged(s: State) {
    && (forall key :: key in s.actors ==> s.actors[key].state != Created && s.actors[key].retryCount == RestartsShown(s.events, key))
    && (forall x :: x in s.events ==> KindFits(x))
    && s.totalSpawned == CountKind(s.events, Spawned) && s.totalRestarted == CountKind(s.events, Restarted)
    && s.totalReaped == CountKind(s.events, Reaped)
  }

  lemma LogAppend(events: seq<Event>, x: Event, key: string, kind: Kind)
    ensures RestartsShown(events + [x], key) ==
            (if x.key == key && x.kind == Spawned then 0
             else RestartsShown(events, key) + (if x.key == key && x.kind == Restarted then 1 else 0))
    ensures CountKind(events + [x], kind) == CountKind(events, kind) + (if x.kind == kind then 1 else 0)
  {
    assert (events + [x])[..|events|] == events;
  }

  /** A further event of a live actor that starts no incarnation. */
  lemma ApplyLogged(s: State, key: string, e: Trigger, kind: Kind)
    requires Logged(s) && key in s.actors && e != Dispatch
    requires kind == MapEvent(e)
    ensures Logged(Apply(s, key, e, kind))
  {
    hide RestartsShown, CountKind, IsTerminal;
    var a := s.actors[key];
    var next := TransitionSubagent(a.state, e);
    if next != a.state {
      var x := Event(kind, key, a.incarnation, a.retryCount, a.state, next);
      var s' := Apply(s, key, e, kind);
      forall k ensures RestartsShown(s'.events, k) == RestartsShown(s.events, k) { LogAppend(s.events, x, k, Spawned); }
      LogAppend(s.events, x, key, Spawned);
      LogAppend(s.events, x, key, Restarted);
      LogAppend(s.events, x, key, Reaped);
      TableByEvent(a.state, e);
      assert KindFits(x);
    }
  }

  /** A dispatch is not accepted by an actor that has left its first state. */
  lemma DispatchIsIgnored(s: State, key: string, kind: Kind)
    requires key in s.actors && s.actors[key].state != Created
    ensures Apply(s, key, Dispatch, kind) == s
  {
  }

  lemma EnterLogged(s: State, key: string, retryCount: nat, spawned: nat, restarted: nat, kind: Kind, resource: Option<nat>)
    requires Logged(s)
    requires kind == Spawned ==> retryCount == 0 && spawned == s.totalSpawned + 1 && restarted == s.totalRestarted
    requires kind == Restarted ==> retryCount == RestartsShown(s.events, key) + 1 && spawned == s.totalSpawned && restarted == s.totalRestarted + 1
    requires kind == Spawned || kind == Restarted
    ensures Logged(Enter(s, key, retryCount, spawned, restarted, kind, resource))
  {
    hide RestartsShown, CountKind;
    var x := Event(kind, key, |s.owners|, retryCount, Created, Dispatched);
    var s' := Enter(s, key, retryCount, spawned, restarted, kind, resource);
    assert s'.events == s.events + [x];
    forall k ensures RestartsShown(s'.events, k) == if k == key then retryCount else RestartsShown(s.events, k) {
      LogAppend(s.events, x, k, Spawned);
    }
    LogAppend(s.events, x, key, Spawned);
    LogAppend(s.events, x, key, Restarted);
    LogAppend(s.events, x, key, Reaped);
    assert KindFits(x);
  }

  lemma TerminateLogged(s: State, key: string)
    requires Logged(s) && key in s.actors
    ensures var s' := Terminate(s, key);
            Logged(s') && key in s'.actors && s'.actors[key].retryCount == s.actors[key].retryCount
  {
    if !IsTerminal(s.actors[key].state) { ApplyLogged(s, key, Error, Crashed); }
  }

  lemma RetriesShown(s: State, key: string)
    requires Logged(s) && key in s.actors
    ensures s.actors[key].retryCount == RestartsShown(s.events, key)
  {
  }

  lemma RestartLogged(s: State, key: string, resource: Option<nat>)
    requires Logged(s)
    ensures Logged(Restart(s, key, resource))
  {
    hide Logged, Enter, Terminate;
    if key in s.actors {
      TerminateLogged(s, key);
      var t := Terminate(s, key);
      RetriesShown(t, key);
      if !Exhausted(s, key) {
        EnterLogged(t, key, s.actors[key].retryCount + 1, t.totalSpawned, t.totalRestarted + 1, Restarted, resource);
      }
    }
  }

  lemma ReapLogged(s: State, key: string)
    requires Logged(s)
    ensures Logged(Reap(s, key))
  {
    hide RestartsShown, CountKind;
    if key in s.actors {
      var a := s.actors[key];
      var next := TransitionSubagent(a.state, Archive);
      var x := Event(Reaped, key, a.incarnation, a.retryCount, a.state, next);
      TableByEvent(a.state, Archive);
      forall k ensures RestartsShown(Reap(s, key).events, k) == RestartsShown(s.events, k) { LogAppend(s.events, x, k, Spawned); }
      LogAppend(s.events, x, key, Spawned);
      LogAppend(s.events, x, key, Restarted);
      LogAppend(s.events, x, key, Reaped);
      assert KindFits(x);
    }
  }

  lemma {:induction false} ReapAllLogged(s: State, keys: seq<string>)
    requires Logged(s)
    ensures Logged(ReapAll(s, keys))
  {
    hide Logged, Reap;
    if keys != [] {
      ReapAllLogged(s, keys[..|keys| - 1]);
      ReapLogged(ReapAll(s, keys[..|keys| - 1]), keys[|keys| - 1]);
    }
  }

  lemma StepLogged(s: State, op: Op)
    requires Logged(s)
    ensures Logged(Step(s, op))
  {
    match op
    case OpSpawn(key, resource) =>
      if key !in s.actors { EnterLogged(s, key, 0, s.totalSpawned + 1, s.totalRestarted, Spawned, resource); }
    case OpSignal(key, e) =>
      if key in s.actors {
        if e == Dispatch { DispatchIsIgnored(s, key, Started); } else { ApplyLogged(s, key, e, MapEvent(e)); }
      }
    case OpRestart(key, resource) => RestartLogged(s, key, resource);
    case OpReap(key) => ReapLogged(s, key);
    case OpStop(keys) => ReapAllLogged(s, keys);
  }

  lemma {:induction false} RunLogged(maxRetries: nat, ops: seq<Op>)
    ensures Logged(Exec(Initial(maxRetries), ops))
  {
    if ops != [] {
      hide Logged, Step;
      RunLogged(maxRetries, ops[..|ops| - 1]);
      StepLogged(Exec(Initial(maxRetries), ops[..|ops| - 1]), ops[|ops| - 1]);
    }
  }

  // ----- the limit on restarts bites -----

  ghost function Sum(m: map<string, nat>): nat
    decreases |m|
  {
    if m == map[] then 0
    else
      var k :| k in m;
      m[k] + Sum(m - {k})
  }

  lemma {:induction false} SumWithout(m: map<string, nat>, k: string)
    requires k in m
    ensures Sum(m) == m[k] + Sum(m - {k})
    decreases |m|
  {
    var j :| j in m && Sum(m) == m[j] + Sum(m - {j});
    if j != k {
      SumWithout(m - {j}, k);
      SumWithout(m - {k}, j);
      assert m - {j} - {k} == m - {k} - {j};
    }
  }

  lemma SumSet(m: map<string, nat>, k: string, v: nat)
    ensures Sum(m[k := v]) + (if k in m then m[k] else 0) == Sum(m) + v
  {
    SumWithout(m[k := v], k);
    assert m[k := v] - {k} == m - {k};
    if k in m { SumWithout(m, k); } else { assert m - {k} == m; }
  }

  /** The restarts that the limit still allows each live actor. */
  ghost function Allowed(s: State): map<string, nat>
  {
    map key | key in s.actors :: if s.actors[key].retryCount <= s.maxRetries then s.maxRetries - s.actors[key].retryCount else 0
  }

  /** Restarts made and restarts still allowed stay within the limit for every spawn. */
  ghost predicate WithinLimit(s: State) {
    s.totalRestarted + Sum(Allowed(s)) <= s.maxRetries * s.totalSpawned
  }

  lemma EnterAllows(s: State, key: string, retryCount: nat, spawned: nat, restarted: nat, kind: Kind, resource: Option<nat>)
    requires retryCount <= s.maxRetries
    ensures var s' := Enter(s, key, retryCount, spawned, restarted, kind, resource);
            && Allowed(s') == Allowed(s)[key := s.maxRetries - retryCount]
            && s'.maxRetries == s.maxRetries && s'.totalSpawned == spawned && s'.totalRestarted == restarted
  {
  }

  lemma OnceMore(a: nat, b: nat)
    ensures a * (b + 1) == a * b + a
  {
  }

  lemma SpawnWithin(s: State, key: string, resource: Option<nat>)
    requires WithinLimit(s) && key !in s.actors
    ensures WithinLimit(Spawn(s, key, resource))
  {
    hide Enter, Sum;
    EnterAllows(s, key, 0, s.totalSpawned + 1, s.totalRestarted, Spawned, resource);
    SumSet(Allowed(s), key, s.maxRetries);
    OnceMore(s.maxRetries, s.totalSpawned);
  }

  lemma ApplyWithin(s: State, key: string, e: Trigger, kind: Kind)
    requires WithinLimit(s) && key in s.actors
    ensures WithinLimit(Apply(s, key, e, kind))
  {
    assert Allowed(Apply(s, key, e, kind)) == Allowed(s);
  }

  lemma TerminateAllows(s: State, key: string)
    requires key in s.actors
    ensures var t := Terminate(s, key);
            && Allowed(t) == Allowed(s) && key in t.actors && t.maxRetries == s.maxRetries
            && t.totalSpawned == s.totalSpawned && t.totalRestarted == s.totalRestarted
  {
  }

  lemma RestartWithin(s: State, key: string, resource: Option<nat>)
    requires WithinLimit(s) && key in s.actors
    ensures WithinLimit(Restart(s, key, resource))
  {
    hide Enter, Sum, Terminate;
    var t := Terminate(s, key);
    TerminateAllows(s, key);
    if !Exhausted(s, key) {
      var retryCount := s.actors[key].retryCount + 1;
      EnterAllows(t, key, retryCount, t.totalSpawned, t.totalRestarted + 1, Restarted, resource);
      SumSet(Allowed(s), key, s.maxRetries - retryCount);
      assert Allowed(s)[key] == s.maxRetries - retryCount + 1;
    }
  }

  lemma ReapWithin(s: State, key: string)
    requires WithinLimit(s)
    ensures WithinLimit(Reap(s, key))
  {
    if key in s.actors {
      assert Allowed(Reap(s, key)) == Allowed(s) - {key};
      SumWithout(Allowed(s), key);
    }
  }

  lemma {:induction false} ReapAllWithin(s: State, keys: seq<string>)
    requires WithinLimit(s)
    ensures WithinLimit(ReapAll(s, keys))
  {
    if keys != [] {
      hide WithinLimit, Reap;
      ReapAllWithin(s, keys[..|keys| - 1]);
      ReapWithin(ReapAll(s, keys[..|keys| - 1]), keys[|keys| - 1]);
    }
  }

  lemma {:induction false} RunWithin(maxRetries: nat, ops: seq<Op>)
    ensures WithinLimit(Exec(Initial(maxRetries), ops))
  {
    if ops == [] {
      assert Allowed(Initial(maxRetries)) == map[];
    } else {
      hide WithinLimit, Spawn, Restart, Apply, Reap;
      var s := Exec(Initial(maxRetries), ops[..|ops| - 1]);
      RunWithin(maxRetries, ops[..|ops| - 1]);
      match ops[|ops| - 1]
      case OpSpawn(key, resource) => if key !in s.actors { SpawnWithin(s, key, resource); } else { SpawnTaken(s, key, resource); }
      case OpSignal(key, e) => if key in s.actors { ApplyWithin(s, key, e, MapEvent(e)); }
      case OpRestart(key, resource) => if key in s.actors { RestartWithin(s, key, resource); } else { RestartUnknown(s, key, resource); }
      case OpReap(key) => ReapWithin(s, key);
      case OpStop(keys) => ReapAllWithin(s, keys);
    }
  }

  lemma SpawnTaken(s: State, key: string, resource: Option<nat>)
    requires key in s.actors
    ensures Spawn(s, key, resource) == s
  {
  }

  lemma RestartUnknown(s: State, key: string, resource: Option<nat>)
    requires key !in s.actors
    ensures Restart(s, key, resource) == s
  {
  }

  /** In every run a live actor's retry count is the number of restarts that the log shows since its last spawn, the
      log's kinds tell what happened and account for the counters, and there are never more restarts than the limit
      allows for every spawn: a crash loop ends. */
  lemma RestartsAreLimited(maxRetries: nat, ops: seq<Op>)
    ensures var s := Exec(Initial(maxRetries), ops);
            && (forall key :: key in s.actors ==> s.actors[key].retryCount == RestartsShown(s.events, key) <= maxRetries)
            && (forall x :: x in s.events ==> KindFits(x))
            && s.totalSpawned == CountKind(s.events, Spawned) && s.totalRestarted == CountKind(s.events, Restarted)
            && s.totalReaped == CountKind(s.events, Reaped)
            && s.totalRestarted <= maxRetries * s.totalSpawned
  {
    RunLogged(maxRetries, ops);
    RunWithin(maxRetries, ops);
    EveryRun(maxRetries, ops);
    KeepsLimit(maxRetries, ops);
  }
}
