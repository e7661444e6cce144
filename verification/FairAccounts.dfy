/** What a run of the fair pool owes to its events: every promise gets the outcome its task had, and the counters
    count those outcomes. Everything on the right-hand sides is read off the events. */
module FairAccounts {
  import opened OrderedMaps
  import opened FairScheduler
  import opened FairPool

  /** What the inner pool reported, in order. */
  function Reports(es: seq<Event>): seq<Settlement> {
    if es == [] then []
    else if es[0].Settle? then [Settlement(es[0].task, es[0].outcome)] + Reports(es[1..])
    else Reports(es[1..])
  }

  function Successes(es: seq<Event>): nat {
    if es == [] then 0
    else Successes(es[1..]) + if es[0].Settle? && es[0].outcome == Resolved(true) then 1 else 0
  }

  function Failures(es: seq<Event>): nat {
    if es == [] then 0
    else Failures(es[1..]) + if es[0].Settle? && es[0].outcome != Resolved(true) then 1 else 0
  }

  /** The topics of the calls made before the pool is destroyed, in order. */
  function Submissions(es: seq<Event>): seq<string> {
    if es == [] || es[0].Destroy? then []
    else if es[0].Submit? then [es[0].topic] + Submissions(es[1..])
    else Submissions(es[1..])
  }

  /** The settlements that are no discards, in order. */
  function FromInner(settled: seq<Settlement>): seq<Settlement> {
    if settled == [] then []
    else
      var before, last := FromInner(settled[..|settled| - 1]), settled[|settled| - 1];
      if last.outcome.Discarded? then before else before + [last]
  }

  lemma FromInnerAppend(a: seq<Settlement>, x: Settlement)
    ensures FromInner(a + [x]) == if x.outcome.Discarded? then FromInner(a) else FromInner(a) + [x]
  {
    assert (a + [x])[..|a|] == a;
  }

  lemma {:induction false} DiscardsAreNotInner(a: seq<Settlement>, tasks: seq<nat>)
    ensures FromInner(a + Discards(tasks)) == FromInner(a)
  {
    if tasks == [] {
      assert a + Discards(tasks) == a;
    } else {
      var n := |tasks| - 1;
      DiscardsAreNotInner(a, tasks[..n]);
      assert a + Discards(tasks) == (a + Discards(tasks[..n])) + [Settlement(tasks[n], Discarded)];
      FromInnerAppend(a + Discards(tasks[..n]), Settlement(tasks[n], Discarded));
    }
  }

  /** Handing tasks over settles nothing and accepts nothing. */
  lemma {:induction false} PumpKeepsAccounts(s: State)
    ensures var s' := Pump(s);
            && s'.settled == s.settled && s'.completed == s.completed && s'.failed == s.failed
            && s'.accepted == s.accepted && s'.destroyed == s.destroyed
    decreases s.maxConcurrent - s.inFlight
  {
    if CanDispatch(s) { PumpKeepsAccounts(DispatchOne(s)); }
  }

  /** What `es` add to the accounts on the way from `s` to `s'`. */
  ghost predicate Accounted(s: State, es: seq<Event>, s': State) {
    && FromInner(s'.settled) == FromInner(s.settled) + Reports(es)
    && s'.completed == s.completed + Successes(es) && s'.failed == s.failed + Failures(es)
    && s'.accepted == (if s.destroyed then s.accepted else s.accepted + Submissions(es))
  }

  lemma StepAccounts(s: State, e: Event)
    requires Enabled(s, e)
    ensures Accounted(s, [e], Step(s, e)) && Step(s, e).destroyed == (s.destroyed || e.Destroy?)
  {
    hide Pump, FromInner, Queued, Discards, Reports, Successes, Failures, Submissions;
    OneEvent(e);
    match e
    case Submit(topic) => PumpKeepsAccounts(Enqueue(s, topic));
    case Settle(task, outcome) =>
      PumpKeepsAccounts(Account(s, task, outcome));
      FromInnerAppend(s.settled, Settlement(task, outcome));
    case Destroy => DiscardsAreNotInner(s.settled, Queued(s.queues, |s.queues.keys|));
  }

  lemma OneEvent(e: Event)
    ensures Reports([e]) == (if e.Settle? then [Settlement(e.task, e.outcome)] else [])
    ensures Successes([e]) == (if e.Settle? && e.outcome == Resolved(true) then 1 else 0)
    ensures Failures([e]) == (if e.Settle? && e.outcome != Resolved(true) then 1 else 0)
    ensures Submissions([e]) == (if e.Submit? then [e.topic] else [])
  {
    assert [e][1..] == [];
  }

  lemma ReadEvent(e: Event, es: seq<Event>)
    ensures Reports([e] + es) == Reports([e]) + Reports(es)
    ensures Successes([e] + es) == Successes([e]) + Successes(es) && Failures([e] + es) == Failures([e]) + Failures(es)
    ensures if e.Destroy? then Submissions([e] + es) == Submissions([e]) == []
            else Submissions([e] + es) == Submissions([e]) + Submissions(es)
  {
    assert ([e] + es)[1..] == es && [e][1..] == [];
  }

  lemma AccountsChain(s: State, e: Event, s': State, es: seq<Event>, s'': State)
    requires Accounted(s, [e], s') && Accounted(s', es, s'') && s'.destroyed == (s.destroyed || e.Destroy?)
    ensures Accounted(s, [e] + es, s'')
  {
    hide FromInner, Reports, Successes, Failures, Submissions;
    ReadEvent(e, es);
    assert (FromInner(s.settled) + Reports([e])) + Reports(es) == FromInner(s.settled) + (Reports([e]) + Reports(es));
    if !s.destroyed && !e.Destroy? {
      assert (s.accepted + Submissions([e])) + Submissions(es) == s.accepted + (Submissions([e]) + Submissions(es));
    }
  }

  lemma NoAccounts(s: State)
    ensures Accounted(s, [], s)
  {
  }

  lemma {:induction false} RunAccounts(s: State, es: seq<Event>)
    requires Runs(s, es)
    ensures Accounted(s, es, Exec(s, es))
    decreases |es|
  {
    hide Step, Enabled, Reports, Successes, Failures, Submissions, FromInner;
    if es == [] {
      NoAccounts(s);
    } else {
      hide Accounted;
      StepAccounts(s, es[0]);
      RunAccounts(Step(s, es[0]), es[1..]);
      AccountsChain(s, es[0], Step(s, es[0]), es[1..], Exec(s, es));
      assert [es[0]] + es[1..] == es;
    }
  }

  /** In every run the promises settled by the inner pool are settled with the outcomes it reported, in the order in
      which it reported them; successes count as completed and everything else as failed; and the accepted tasks are
      the calls made before the pool was destroyed. */
  lemma OutcomesAreReported(maxConcurrent: int, es: seq<Event>)
    requires Runs(Fresh(maxConcurrent), es)
    ensures var s := Exec(Fresh(maxConcurrent), es);
            && FromInner(s.settled) == Reports(es)
            && s.completed == Successes(es) && s.failed == Failures(es)
            && s.accepted == Submissions(es)
  {
    RunAccounts(Fresh(maxConcurrent), es);
  }
}
