/** The patched worker pool: a fixed number of threads, one task per thread, a watchdog per task, and a
    replacement for every thread that dies. Slots are numbered in the order in which they are created. */
module WorkerPool {
  import opened OrderedMaps

  /** `listening` are the tasks whose message listener is attached to the slot's worker. */
  datatype Slot = Slot(busy: bool, current: Option<nat>, dead: bool, listening: set<nat>)

  /** How the promise of a pooled task was settled. */
  datatype Settlement = Settlement(task: nat, ok: bool)

  /** `workers` is the rotation. `timers` maps each task with a running watchdog to the slot its closure
      captured. `submitted` and `settled` are history: calls of execute, and the settlements of pooled tasks. */
  datatype Pool = Pool(
    maxThreads: nat, slots: seq<Slot>, workers: seq<nat>, activeCount: int,
    completed: nat, failed: nat, deadWorkers: nat, taskCounter: nat,
    timers: map<nat, nat>, submitted: nat, settled: multiset<Settlement>)

  datatype Event =
    | Execute(posts: bool, inlineOk: bool) | Message(slot: nat, id: nat, ok: bool)
    | Watchdog(id: nat) | Die(slot: nat)

  const IDLE := Slot(false, None, false, {})

  function Started(maxThreads: nat): Pool {
    Pool(maxThreads, seq(maxThreads, _ => IDLE), seq(maxThreads, i => i), 0, 0, 0, 0, 0, map[], 0, multiset{})
  }

  ghost predicate InRange(p: Pool) {
    forall i :: 0 <= i < |p.workers| ==> p.workers[i] < |p.slots|
  }

  /** Index in the rotation, from `k` on, of the first slot that is neither busy nor dead. */
  function FindFree(p: Pool, k: nat): (i: nat)
    requires InRange(p) && k <= |p.workers|
    ensures k <= i <= |p.workers|
    ensures i < |p.workers| ==> !p.slots[p.workers[i]].busy && !p.slots[p.workers[i]].dead
    ensures forall j :: k <= j < i ==> p.slots[p.workers[j]].busy || p.slots[p.workers[j]].dead
    decreases |p.workers| - k
  {
    if k == |p.workers| || (!p.slots[p.workers[k]].busy && !p.slots[p.workers[k]].dead) then k else FindFree(p, k + 1)
  }

  /** The settle path of replies, watchdogs and failed posts: the closure of task `id` on slot `w`. It stops
      the watchdog of whatever task the slot holds now and settles its own. */
  function Finish(p: Pool, w: nat, id: nat, ok: bool): Pool
    requires w < |p.slots|
  {
    var slot := p.slots[w];
    if slot.dead then p
    else
      p.(slots := p.slots[w := Slot(false, None, false, slot.listening - {id})],
         timers := if slot.current.Some? then p.timers - {slot.current.value} else p.timers,
         activeCount := p.activeCount - 1,
         completed := if ok then p.completed + 1 else p.completed,
         failed := if ok then p.failed else p.failed + 1,
         settled := p.settled + multiset{Settlement(id, ok)})
  }

  /** Gives the next task to slot `w`. */
  function Assign(p: Pool, w: nat): Pool
    requires w < |p.slots|
  {
    var id := p.taskCounter + 1;
    p.(slots := p.slots[w := p.slots[w].(busy := true, current := Some(id), listening := p.slots[w].listening + {id})],
       timers := p.timers[id := w], activeCount := p.activeCount + 1, taskCounter := id, submitted := p.submitted + 1)
  }

  function DoExecute(p: Pool, posts: bool, inlineOk: bool): Pool
    requires InRange(p)
  {
    var i := FindFree(p, 0);
    if i < |p.workers| then
      var given := Assign(p, p.workers[i]);
      if posts then given else Finish(given, p.workers[i], given.taskCounter, false)
    else
      p.(submitted := p.submitted + 1,
         completed := if inlineOk then p.completed + 1 else p.completed,
         failed := if inlineOk then p.failed else p.failed + 1)
  }

  /** Takes a slot out of the rotation. */
  function Retire(p: Pool, w: nat): Pool {
    var i := IndexOf(p.workers, w);
    if i != -1 then p.(workers := WithoutIndex(p.workers, i)) else p
  }

  /** Starts a replacement while the rotation is short. */
  function Respawn(p: Pool): Pool {
    if |p.workers| < p.maxThreads then p.(workers := p.workers + [|p.slots|], slots := p.slots + [IDLE]) else p
  }

  /** Marks a slot dead and rejects the task it holds. */
  function Reject(p: Pool, w: nat): Pool
    requires w < |p.slots|
  {
    var c := p.slots[w].current;
    p.(slots := p.slots[w := p.slots[w].(dead := true)], deadWorkers := p.deadWorkers + 1,
       timers := if c.Some? then p.timers - {c.value} else p.timers,
       activeCount := if c.Some? then p.activeCount - 1 else p.activeCount,
       failed := if c.Some? then p.failed + 1 else p.failed,
       settled := if c.Some? then p.settled + multiset{Settlement(c.value, false)} else p.settled)
  }

  /** A death is handled once. */
  function DoDie(p: Pool, w: nat): Pool
    requires w < |p.slots|
  {
    if p.slots[w].dead then p else Respawn(Retire(Reject(p, w), w))
  }

  function Step(p: Pool, e: Event): Pool
    requires InRange(p) && Enabled(p, e)
  {
    match e
    case Execute(posts, inlineOk) => DoExecute(p, posts, inlineOk)
    case Message(w, id, ok) => if id in p.slots[w].listening then Finish(p, w, id, ok) else p
    case Watchdog(id) => Finish(p.(timers := p.timers - {id}), p.timers[id], id, false)
    case Die(w) => DoDie(p, w)
  }

  /** Messages and deaths come from slots that exist, in any order and any number; a watchdog fires only
      while its timer runs. */
  predicate Enabled(p: Pool, e: Event) {
    match e
    case Execute(_, _) => true
    case Message(w, _, _) => w < |p.slots|
    case Watchdog(id) => id in p.timers && p.timers[id] < |p.slots|
    case Die(w) => w < |p.slots|
  }

  // ----- what every event keeps -----

  ghost predicate Live(p: Pool, w: nat) {
    w < |p.slots| && !p.slots[w].dead
  }

  ghost function BusySlots(p: Pool): set<nat> {
    set w | 0 <= w < |p.slots| && !p.slots[w].dead && p.slots[w].busy
  }

  ghost predicate SlotOk(p: Pool, w: nat)
    requires w < |p.slots|
  {
    var s := p.slots[w];
    && (w in p.workers <==> !s.dead)
    && (!s.dead ==>
          && s.busy == s.current.Some?
          && s.listening == (if s.current.Some? then {s.current.value} else {})
          && (s.current.Some? ==> s.current.value in p.timers && p.timers[s.current.value] == w))
  }

  /** How often task `id` was settled. */
  function Times(p: Pool, id: nat): nat {
    p.settled[Settlement(id, true)] + p.settled[Settlement(id, false)]
  }

  /** A pooled task is active, its watchdog running on the slot that holds it, or settled once. */
  ghost predicate TaskOk(p: Pool, id: nat) {
    && Times(p, id) <= 1
    && (1 <= id <= p.taskCounter <==> id in p.timers || Times(p, id) == 1)
    && (id in p.timers ==> Times(p, id) == 0 && Live(p, p.timers[id]) && p.slots[p.timers[id]].current == Some(id))
  }

  ghost predicate Inv(p: Pool) {
    && Distinct(p.workers) && |p.workers| == p.maxThreads && InRange(p)
    && (forall w {:trigger SlotOk(p, w)} :: 0 <= w < |p.slots| ==> SlotOk(p, w))
    && (forall id {:trigger TaskOk(p, id)} :: TaskOk(p, id))
    && p.activeCount == |BusySlots(p)|
    && p.submitted == p.completed + p.failed + p.activeCount
    && p.deadWorkers + p.maxThreads == |p.slots|
  }

  lemma StartedInv(maxThreads: nat)
    ensures Inv(Started(maxThreads))
  {
    var p := Started(maxThreads);
    forall w | 0 <= w < |p.slots| ensures SlotOk(p, w) { assert p.workers[w] == w; }
    assert BusySlots(p) == {};
  }

  lemma AssignInv(p: Pool, w: nat)
    requires Inv(p) && Live(p, w) && !p.slots[w].busy
    ensures Inv(Assign(p, w))
  {
    var p' := Assign(p, w);
    var id := p'.taskCounter;
    assert SlotOk(p, w) && TaskOk(p, id);
    forall x | 0 <= x < |p'.slots| ensures SlotOk(p', x) { assert SlotOk(p, x); }
    forall t: nat ensures TaskOk(p', t) { assert TaskOk(p, t); }
    assert BusySlots(p') == BusySlots(p) + {w};
  }

  /** Finishing the task a live slot holds settles exactly that task. */
  lemma FinishInv(p: Pool, w: nat, id: nat, ok: bool)
    requires Inv(p) && Live(p, w) && p.slots[w].current == Some(id)
    ensures Inv(Finish(p, w, id, ok))
  {
    var p' := Finish(p, w, id, ok);
    assert SlotOk(p, w) && TaskOk(p, id);
    forall x | 0 <= x < |p'.slots| ensures SlotOk(p', x) {
      assert SlotOk(p, x);
    }
    forall t: nat ensures TaskOk(p', t) { assert TaskOk(p, t); }
    assert BusySlots(p') == BusySlots(p) - {w};
  }

  lemma RetireRotation(p: Pool, w: nat)
    requires Inv(p) && Live(p, w)
    ensures w in p.workers && Distinct(WithoutIndex(p.workers, IndexOf(p.workers, w)))
    ensures forall x :: x in WithoutIndex(p.workers, IndexOf(p.workers, w)) <==> x in p.workers && x != w
  {
    assert SlotOk(p, w);
    WithoutIndexFacts(p.workers, IndexOf(p.workers, w));
  }

  lemma DieEffect(p: Pool, w: nat)
    requires Inv(p) && Live(p, w)
    ensures var p', c := DoDie(p, w), p.slots[w].current;
            && w in p.workers && p'.workers == WithoutIndex(p.workers, IndexOf(p.workers, w)) + [|p.slots|]
            && p'.slots == p.slots[w := p.slots[w].(dead := true)] + [IDLE]
            && p'.timers == (if c.Some? then p.timers - {c.value} else p.timers)
            && p'.settled == (if c.Some? then p.settled + multiset{Settlement(c.value, false)} else p.settled)
            && p'.activeCount == p.activeCount - (if c.Some? then 1 else 0)
            && p'.failed == p.failed + (if c.Some? then 1 else 0) && p'.completed == p.completed
            && p'.deadWorkers == p.deadWorkers + 1 && p'.maxThreads == p.maxThreads
            && p'.submitted == p.submitted && p'.taskCounter == p.taskCounter
  {
    RetireRotation(p, w);
  }

  lemma DieTasks(p: Pool, w: nat, id: nat)
    requires Inv(p) && Live(p, w)
    ensures TaskOk(DoDie(p, w), id)
  {
    DieEffect(p, w);
    assert SlotOk(p, w) && TaskOk(p, id);
  }

  lemma DieSlots(p: Pool, w: nat, x: nat)
    requires Inv(p) && Live(p, w) && x <= |p.slots|
    ensures x < |DoDie(p, w).slots| && SlotOk(DoDie(p, w), x)
  {
    DieEffect(p, w);
    RetireRotation(p, w);
    assert SlotOk(p, w);
    if x < |p.slots| { assert SlotOk(p, x); }
  }

  lemma DieBusy(p: Pool, w: nat)
    requires Inv(p) && Live(p, w)
    ensures BusySlots(DoDie(p, w)) == BusySlots(p) - {w} && (w in BusySlots(p) <==> p.slots[w].busy)
  {
    DieEffect(p, w);
    assert SlotOk(p, w);
    forall x | 0 <= x < |DoDie(p, w).slots| ensures x in BusySlots(DoDie(p, w)) <==> x in BusySlots(p) && x != w { DieSlots(p, w, x); }
  }

  lemma DieInv(p: Pool, w: nat)
    requires Inv(p) && Live(p, w)
    ensures Inv(DoDie(p, w))
  {
    hide BusySlots;
    var p' := DoDie(p, w);
    DieEffect(p, w);
    RetireRotation(p, w);
    assert SlotOk(p, w);
    forall x | 0 <= x < |p'.slots| ensures SlotOk(p', x) { DieSlots(p, w, x); }
    forall t: nat ensures TaskOk(p', t) { DieTasks(p, w, t); }
    DieBusy(p, w);
  }

  lemma ExecuteInv(p: Pool, posts: bool, inlineOk: bool)
    requires Inv(p)
    ensures Inv(DoExecute(p, posts, inlineOk))
  {
    var i := FindFree(p, 0);
    if i < |p.workers| {
      AssignInv(p, p.workers[i]);
      var given := Assign(p, p.workers[i]);
      if !posts { FinishInv(given, p.workers[i], given.taskCounter, false); }
    } else {
      InlineInv(p, inlineOk);
    }
  }

  lemma InlineInv(p: Pool, inlineOk: bool)
    requires Inv(p)
    ensures Inv(p.(submitted := p.submitted + 1,
                   completed := if inlineOk then p.completed + 1 else p.completed,
                   failed := if inlineOk then p.failed else p.failed + 1))
  {
    var p' := p.(submitted := p.submitted + 1,
                 completed := if inlineOk then p.completed + 1 else p.completed,
                 failed := if inlineOk then p.failed else p.failed + 1);
    forall x | 0 <= x < |p'.slots| ensures SlotOk(p', x) { assert SlotOk(p, x); }
    forall t: nat ensures TaskOk(p', t) { assert TaskOk(p, t); }
    assert BusySlots(p') == BusySlots(p);
  }

  /** The watchdog's own timer is the one of the task its slot holds. */
  lemma WatchdogFinishes(p: Pool, id: nat)
    requires Inv(p) && id in p.timers
    ensures Live(p, p.timers[id]) && p.slots[p.timers[id]].current == Some(id)
    ensures Finish(p.(timers := p.timers - {id}), p.timers[id], id, false) == Finish(p, p.timers[id], id, false)
  {
    assert TaskOk(p, id);
  }

  lemma StepInv(p: Pool, e: Event)
    requires Inv(p) && Enabled(p, e)
    ensures Inv(Step(p, e))
  {
    match e
    case Execute(posts, inlineOk) => ExecuteInv(p, posts, inlineOk);
    case Message(w, id, ok) =>
      assert SlotOk(p, w);
      if id in p.slots[w].listening && !p.slots[w].dead { FinishInv(p, w, id, ok); }
    case Watchdog(id) =>
      WatchdogFinishes(p, id);
      FinishInv(p, p.timers[id], id, false);
    case Die(w) => if !p.slots[w].dead { DieInv(p, w); }
  }

  // ----- what every run guarantees -----

  ghost predicate Runs(p: Pool, es: seq<Event>)
    decreases |es|
  {
    es == [] || (InRange(p) && Enabled(p, es[0]) && Runs(Step(p, es[0]), es[1..]))
  }

  ghost function Exec(p: Pool, es: seq<Event>): Pool
    requires Runs(p, es)
    decreases |es|
  {
    if es == [] then p else Exec(Step(p, es[0]), es[1..])
  }

  lemma {:induction false} RunInv(p: Pool, es: seq<Event>)
    requires Inv(p) && Runs(p, es)
    ensures Inv(Exec(p, es)) && Exec(p, es).maxThreads == p.maxThreads
    decreases |es|
  {
    if es != [] {
      StepInv(p, es[0]);
      RunInv(Step(p, es[0]), es[1..]);
    }
  }

  /** Over every interleaving the rotation has exactly the configured number of slots, all alive, the active
      count is the number of busy ones, every call of execute is completed, failed or active, and a pooled
      task is settled once or still active. */
  lemma EveryInterleaving(maxThreads: nat, es: seq<Event>, id: nat)
    requires Runs(Started(maxThreads), es)
    ensures var p := Exec(Started(maxThreads), es);
            && |p.workers| == maxThreads && Distinct(p.workers)
            && (forall w :: w in p.workers ==> Live(p, w))
            && p.activeCount == |BusySlots(p)| && BusySlots(p) <= (set w | w in p.workers)
            && p.submitted == p.completed + p.failed + p.activeCount
            && (1 <= id <= p.taskCounter ==> (id in p.timers && Times(p, id) == 0) || (id !in p.timers && Times(p, id) == 1))
  {
    StartedInv(maxThreads);
    RunInv(Started(maxThreads), es);
    var p := Exec(Started(maxThreads), es);
    assert TaskOk(p, id);
    forall w | w in p.workers ensures Live(p, w) {
      var i :| 0 <= i < |p.workers| && p.workers[i] == w;
      assert SlotOk(p, w);
    }
    forall w | w in BusySlots(p) ensures w in p.workers { assert SlotOk(p, w); }
  }

  /** A reply settles a task only while its slot lives and still holds that task. A late reply, for a task
      that timed out or failed to post, changes nothing, whatever the slot does now. */
  lemma LateReplyIsIgnored(p: Pool, w: nat, id: nat, ok: bool)
    requires Inv(p) && Enabled(p, Message(w, id, ok))
    requires p.slots[w].dead || p.slots[w].current != Some(id)
    ensures Step(p, Message(w, id, ok)) == p
  {
    assert SlotOk(p, w);
  }

  /** A watchdog settles the task it was started for, and no other. */
  lemma WatchdogHitsOwnTask(p: Pool, id: nat)
    requires Inv(p) && Enabled(p, Watchdog(id))
    ensures Step(p, Watchdog(id)).settled == p.settled + multiset{Settlement(id, false)}
    ensures Step(p, Watchdog(id)).timers == p.timers - {id}
  {
    WatchdogFinishes(p, id);
  }
}
