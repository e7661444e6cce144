/** What an interleaving of the worker pool owes to its events: how each pooled task's promise is settled, and which
    counter moves. What an event means is read off the slots as it finds them. */
module WorkerPoolAccounts {
  import opened OrderedMaps
  import opened WorkerPool

  /** The slot lives and works on the task. */
  predicate Own(p: Pool, w: nat, id: nat) {
    w < |p.slots| && !p.slots[w].dead && p.slots[w].current == Some(id)
  }

  predicate HasFree(p: Pool)
    requires InRange(p)
  {
    exists i :: 0 <= i < |p.workers| && !p.slots[p.workers[i]].busy && !p.slots[p.workers[i]].dead
  }

  /** The event fails a task that a slot works on, or is about to: its watchdog fires, its worker dies, or its request
      cannot be posted. */
  function Lost(p: Pool, e: Event): Option<nat>
    requires InRange(p)
  {
    match e
    case Execute(posts, _) => if HasFree(p) && !posts then Some(p.taskCounter + 1) else None
    case Message(_, _, _) => None
    case Watchdog(id) => Some(id)
    case Die(w) => if w < |p.slots| && !p.slots[w].dead then p.slots[w].current else None
  }

  /** The settlement of a pooled task that an event brings about: a reply to the slot's own task has the reply's outcome,
      everything else is a failure. */
  function Brings(p: Pool, e: Event): multiset<Settlement>
    requires InRange(p)
  {
    if e.Message? then (if Own(p, e.slot, e.id) then multiset{Settlement(e.id, e.ok)} else multiset{})
    else if Lost(p, e).Some? then multiset{Settlement(Lost(p, e).value, false)}
    else multiset{}
  }

  /** A successful reply to the slot's own task, or a successful inline call. */
  predicate Succeeds(p: Pool, e: Event)
    requires InRange(p)
  {
    (e.Message? && Own(p, e.slot, e.id) && e.ok) || (e.Execute? && !HasFree(p) && e.inlineOk)
  }

  /** A failed reply to the slot's own task, a lost task, or a failed inline call. */
  predicate Fails(p: Pool, e: Event)
    requires InRange(p)
  {
    (e.Message? && Own(p, e.slot, e.id) && !e.ok) || Lost(p, e).Some? || (e.Execute? && !HasFree(p) && !e.inlineOk)
  }

  // ----- over a run -----

  ghost function Successes(p: Pool, es: seq<Event>): nat
    requires Runs(p, es)
    decreases |es|
  {
    if es == [] then 0 else (if Succeeds(p, es[0]) then 1 else 0) + Successes(Step(p, es[0]), es[1..])
  }

  ghost function Failures(p: Pool, es: seq<Event>): nat
    requires Runs(p, es)
    decreases |es|
  {
    if es == [] then 0 else (if Fails(p, es[0]) then 1 else 0) + Failures(Step(p, es[0]), es[1..])
  }

  ghost function Settlements(p: Pool, es: seq<Event>): multiset<Settlement>
    requires Runs(p, es)
    decreases |es|
  {
    if es == [] then multiset{} else Brings(p, es[0]) + Settlements(Step(p, es[0]), es[1..])
  }

  ghost function Deaths(p: Pool, es: seq<Event>): nat
    requires Runs(p, es)
    decreases |es|
  {
    if es == [] then 0
    else (if es[0].Die? && !p.slots[es[0].slot].dead then 1 else 0) + Deaths(Step(p, es[0]), es[1..])
  }

  function Calls(es: seq<Event>): nat {
    if es == [] then 0 else (if es[0].Execute? then 1 else 0) + Calls(es[1..])
  }

  // ----- one event -----

  /** What one event adds to the accounts. */
  ghost predicate Adds(p: Pool, e: Event, p': Pool)
    requires InRange(p)
  {
    && p'.settled == p.settled + Brings(p, e)
    && p'.completed == p.completed + (if Succeeds(p, e) then 1 else 0)
    && p'.failed == p.failed + (if Fails(p, e) then 1 else 0)
    && p'.submitted == p.submitted + (if e.Execute? then 1 else 0)
  }

  lemma FindsFree(p: Pool)
    requires InRange(p)
    ensures FindFree(p, 0) < |p.workers| <==> HasFree(p)
  {
  }

  lemma ExecuteAdds(p: Pool, posts: bool, inlineOk: bool)
    requires Inv(p)
    ensures Adds(p, Execute(posts, inlineOk), DoExecute(p, posts, inlineOk))
  {
    FindsFree(p);
  }

  lemma MessageAdds(p: Pool, w: nat, id: nat, ok: bool)
    requires Inv(p) && w < |p.slots|
    ensures Adds(p, Message(w, id, ok), Step(p, Message(w, id, ok)))
  {
    assert SlotOk(p, w);
  }

  lemma DieAdds(p: Pool, w: nat)
    requires Inv(p) && w < |p.slots|
    ensures Adds(p, Die(w), DoDie(p, w))
    ensures DoDie(p, w).deadWorkers == p.deadWorkers + (if p.slots[w].dead then 0 else 1)
  {
    if !p.slots[w].dead { DieEffect(p, w); }
  }

  lemma StepAdds(p: Pool, e: Event)
    requires Inv(p) && Enabled(p, e)
    ensures Adds(p, e, Step(p, e))
    ensures Step(p, e).deadWorkers == p.deadWorkers + (if e.Die? && !p.slots[e.slot].dead then 1 else 0)
  {
    match e
    case Execute(posts, inlineOk) => ExecuteAdds(p, posts, inlineOk);
    case Message(w, id, ok) => MessageAdds(p, w, id, ok);
    case Watchdog(id) => WatchdogFinishes(p, id);
    case Die(w) => DieAdds(p, w);
  }

  lemma {:induction false} RunAdds(p: Pool, es: seq<Event>)
    requires Inv(p) && Runs(p, es)
    ensures var p' := Exec(p, es);
            && p'.settled == p.settled + Settlements(p, es)
            && p'.completed == p.completed + Successes(p, es) && p'.failed == p.failed + Failures(p, es)
            && p'.submitted == p.submitted + Calls(es) && p'.deadWorkers == p.deadWorkers + Deaths(p, es)
    decreases |es|
  {
    hide Step, Brings, Succeeds, Fails, Enabled;
    if es != [] {
      hide Inv;
      StepAdds(p, es[0]);
      StepInv(p, es[0]);
      RunAdds(Step(p, es[0]), es[1..]);
    }
  }

  /** Over every interleaving: promises of pooled tasks are settled as the events say, successful replies and inline calls
      count as completed, failed ones, watchdogs, failed posts and deaths of busy slots as failed, every call counts as
      submitted, and every first death of a slot as a dead worker. */
  lemma OutcomesAreReported(maxThreads: nat, es: seq<Event>)
    requires Runs(Started(maxThreads), es)
    ensures var start := Started(maxThreads); var p := Exec(start, es);
            && p.settled == Settlements(start, es)
            && p.completed == Successes(start, es) && p.failed == Failures(start, es)
            && p.submitted == Calls(es) && p.deadWorkers == Deaths(start, es)
  {
    StartedInv(maxThreads);
    RunAdds(Started(maxThreads), es);
  }
}
