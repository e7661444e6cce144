/** The worker pool over slot objects that its listeners and timers share. Every method is its event of the
    state machine. */
module WorkerPoolObject {
  import opened OrderedMaps
  import opened WorkerPool

  class WorkerSlot {
    const id: nat
    var busy: bool
    var current: Option<nat>
    var dead: bool
    var listening: set<nat>

    constructor (id: nat)
      ensures this.id == id && View() == IDLE
    {
      this.id := id;
      busy, current, dead, listening := false, None, false, {};
    }

    ghost function View(): Slot
      reads this
    {
      Slot(busy, current, dead, listening)
    }

    /** Stops listening for task `id` and is free again. */
    method Release(task: nat)
      modifies this
      ensures View() == old(View()).(busy := false, current := None, listening := old(listening) - {task})
    {
      busy, current, listening := false, None, listening - {task};
    }
  }

  ghost function Views(all: seq<WorkerSlot>): (r: seq<Slot>)
    reads all
    ensures |r| == |all| && forall i :: 0 <= i < |all| ==> r[i] == all[i].View()
  {
    seq(|all|, i requires 0 <= i < |all| reads all => all[i].View())
  }

  ghost function IdsOf(slots: seq<WorkerSlot>): (r: seq<nat>)
    ensures |r| == |slots| && forall i :: 0 <= i < |slots| ==> r[i] == slots[i].id
  {
    seq(|slots|, i requires 0 <= i < |slots| => slots[i].id)
  }

  ghost predicate InOrder(created: nat, all: seq<WorkerSlot>, workers: seq<WorkerSlot>) {
    && created == |all|
    && (forall i :: 0 <= i < |all| ==> all[i].id == i)
    && (forall i :: 0 <= i < |workers| ==> workers[i].id < |all| && all[workers[i].id] == workers[i])
  }

  class ThreadPool {
    const maxThreads: nat
    var workers: seq<WorkerSlot>
    var activeCount: int
    var completedCount: nat
    var failedCount: nat
    var deadWorkers: nat
    var taskCounter: nat
    var timers: map<nat, nat>
    var created: nat
    ghost var all: seq<WorkerSlot>
    ghost var submitted: nat
    ghost var settled: multiset<Settlement>

    ghost function Abs(): Pool
      reads this, all
    {
      Pool(maxThreads, Views(all), IdsOf(workers), activeCount, completedCount, failedCount, deadWorkers, taskCounter,
           timers, submitted, settled)
    }

    /** Slot objects are numbered as created, and the rotation holds some of them. */
    ghost predicate Numbered()
      reads this
    {
      InOrder(created, all, workers)
    }

    ghost predicate Valid()
      reads this, all
    {
      Numbered() && Inv(Abs())
    }

    constructor (maxThreads: nat)
      ensures Valid() && fresh(all) && Abs() == Started(maxThreads)
    {
      this.maxThreads := maxThreads;
      workers, all, created := [], [], 0;
      activeCount, completedCount, failedCount, deadWorkers, taskCounter := 0, 0, 0, 0, 0;
      timers, submitted, settled := map[], 0, multiset{};
      new;
      for i := 0 to maxThreads
        invariant Numbered() && fresh(all) && |all| == |workers| == i && all == workers
        invariant forall j :: 0 <= j < i ==> all[j].View() == IDLE
        invariant activeCount == 0 && completedCount == 0 && failedCount == 0 && deadWorkers == 0 && taskCounter == 0
        invariant timers == map[] && submitted == 0 && settled == multiset{}
      {
        var slot := new WorkerSlot(i);
        workers, all, created := workers + [slot], all + [slot], created + 1;
      }
      StartedInv(maxThreads);
      assert Views(all) == Started(maxThreads).slots;
      assert IdsOf(workers) == Started(maxThreads).workers;
    }

    /** The settle closure of task `id` on `slot`. */
    method FinishTask(slot: WorkerSlot, id: nat, ok: bool)
      requires Numbered() && slot.id < |all| && all[slot.id] == slot
      modifies slot, this`timers, this`activeCount, this`completedCount, this`failedCount, this`settled
      ensures Numbered() && Abs() == Finish(old(Abs()), slot.id, id, ok)
      ensures completedCount == old(completedCount) + (if !old(slot.dead) && ok then 1 else 0)
      ensures failedCount == old(failedCount) + (if !old(slot.dead) && !ok then 1 else 0)
      ensures settled == if old(slot.dead) then old(settled) else old(settled) + multiset{Settlement(id, ok)}
    {
      assert Views(all)[slot.id] == slot.View();
      if slot.dead {
        return;
      }
      if slot.current.Some? {
        timers := timers - {slot.current.value};
      }
      slot.Release(id);
      assert Views(all) == old(Views(all))[slot.id := slot.View()];
      CountSettled(id, ok);
    }

    method CountSettled(id: nat, ok: bool)
      modifies this`activeCount, this`completedCount, this`failedCount, this`settled
      ensures activeCount == old(activeCount) - 1 && settled == old(settled) + multiset{Settlement(id, ok)}
      ensures completedCount == old(completedCount) + (if ok then 1 else 0)
      ensures failedCount == old(failedCount) + (if ok then 0 else 1)
    {
      activeCount := activeCount - 1;
      if ok {
        completedCount := completedCount + 1;
      } else {
        failedCount := failedCount + 1;
      }
      settled := settled + multiset{Settlement(id, ok)};
    }

    method AssignTask(slot: WorkerSlot)
      requires Numbered() && slot.id < |all| && all[slot.id] == slot
      modifies slot, this`timers, this`activeCount, this`taskCounter, this`submitted
      ensures Numbered() && Abs() == Assign(old(Abs()), slot.id)
    {
      slot.busy := true;
      activeCount := activeCount + 1;
      taskCounter := taskCounter + 1;
      slot.current := Some(taskCounter);
      timers := timers[taskCounter := slot.id];
      slot.listening := slot.listening + {taskCounter};
      submitted := submitted + 1;
      assert Views(all) == old(Views(all))[slot.id := slot.View()];
    }

    /** The first slot of the rotation that is neither busy nor dead. */
    method FirstFree() returns (i: nat)
      requires Numbered() && InRange(Abs())
      ensures i == FindFree(Abs(), 0)
    {
      i := 0;
      while i < |workers| && (workers[i].busy || workers[i].dead)
        invariant i <= |workers| && FindFree(Abs(), 0) == FindFree(Abs(), i)
      {
        assert Abs().slots[Abs().workers[i]] == workers[i].View();
        i := i + 1;
      }
      assert i < |workers| ==> Abs().slots[Abs().workers[i]] == workers[i].View();
    }

    /** `posts` is whether posting to the worker succeeds, `inlineOk` whether the handler would run inline
        without an error. */
    method ExecuteTask(posts: bool, inlineOk: bool)
      requires Valid()
      modifies this, all
      ensures Valid() && Abs() == Step(old(Abs()), Execute(posts, inlineOk))
    {
      ghost var before := Abs();
      var i := FirstFree();
      RunOn(i, posts, inlineOk);
      ExecuteInv(before, posts, inlineOk);
    }

    method RunOn(i: nat, posts: bool, inlineOk: bool)
      requires Numbered() && InRange(Abs()) && i == FindFree(Abs(), 0)
      modifies this, all
      ensures Numbered() && Abs() == DoExecute(old(Abs()), posts, inlineOk)
    {
      if i < |workers| {
        var slot := workers[i];
        AssignTask(slot);
        if !posts {
          FinishTask(slot, taskCounter, false);
        }
      } else {
        submitted := submitted + 1;
        if inlineOk {
          completedCount := completedCount + 1;
        } else {
          failedCount := failedCount + 1;
        }
      }
    }

    method OnMessage(slot: WorkerSlot, id: nat, ok: bool)
      requires Valid() && slot.id < |all| && all[slot.id] == slot
      modifies this, all
      ensures Valid() && Abs() == Step(old(Abs()), Message(slot.id, id, ok))
    {
      StepInv(Abs(), Message(slot.id, id, ok));
      if id in slot.listening {
        FinishTask(slot, id, ok);
      }
    }

    method OnWatchdog(slot: WorkerSlot, id: nat)
      requires Valid() && id in timers && timers[id] == slot.id < |all| && all[slot.id] == slot
      modifies this, all
      ensures Valid() && Abs() == Step(old(Abs()), Watchdog(id))
    {
      StepInv(Abs(), Watchdog(id));
      timers := timers - {id};
      FinishTask(slot, id, false);
    }

    /** The 'error' or 'exit' listener of a slot; both may fire for one death. */
    method OnDeath(slot: WorkerSlot)
      requires Valid() && slot.id < |all| && all[slot.id] == slot
      modifies this, all
      ensures Valid() && Abs() == Step(old(Abs()), Die(slot.id)) && fresh(all[old(|all|)..])
    {
      StepInv(Abs(), Die(slot.id));
      if slot.dead {
        return;
      }
      RejectCurrent(slot);
      RetireSlot(slot);
      RespawnSlot();
    }

    method RejectCurrent(slot: WorkerSlot)
      requires Numbered() && slot.id < |all| && all[slot.id] == slot
      modifies slot, this`deadWorkers, this`timers, this`activeCount, this`failedCount, this`settled
      ensures Numbered() && Abs() == Reject(old(Abs()), slot.id)
    {
      slot.dead := true;
      deadWorkers := deadWorkers + 1;
      var cur := slot.current;
      if cur.Some? {
        timers := timers - {cur.value};
        activeCount := activeCount - 1;
        failedCount := failedCount + 1;
        settled := settled + multiset{Settlement(cur.value, false)};
      }
      assert Views(all) == old(Views(all))[slot.id := slot.View()];
    }

    method RetireSlot(slot: WorkerSlot)
      requires Numbered() && slot.id < |all| && all[slot.id] == slot
      modifies this`workers
      ensures Numbered() && Abs() == Retire(old(Abs()), slot.id)
    {
      hide IndexOf;
      var idx := IndexOf(workers, slot);
      SameIndex(workers, all, slot);
      if idx != -1 {
        workers := WithoutIndex(workers, idx);
        assert IdsOf(workers) == WithoutIndex(IdsOf(old(workers)), idx);
      }
    }

    method RespawnSlot()
      requires Numbered()
      modifies this`workers, this`all, this`created
      ensures Numbered() && Abs() == Respawn(old(Abs())) && old(all) <= all && fresh(all[old(|all|)..])
    {
      if |workers| < maxThreads {
        var replacement := new WorkerSlot(created);
        workers, all, created := workers + [replacement], all + [replacement], created + 1;
        assert Views(all) == old(Views(all)) + [IDLE];
        assert IdsOf(workers) == old(IdsOf(workers)) + [replacement.id];
      }
    }
  }

  lemma {:induction false} SameIndex(workers: seq<WorkerSlot>, all: seq<WorkerSlot>, slot: WorkerSlot)
    requires forall i :: 0 <= i < |workers| ==> workers[i].id < |all| && all[workers[i].id] == workers[i]
    requires slot.id < |all| && all[slot.id] == slot
    ensures IndexOf(workers, slot) == IndexOf(IdsOf(workers), slot.id)
  {
    if workers != [] {
      SameIndex(workers[1..], all, slot);
      assert IdsOf(workers)[1..] == IdsOf(workers[1..]);
    }
  }
}
