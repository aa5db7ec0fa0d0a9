/** The scheduler as the master updates it: a dictionary of tasks in submission order. */
module Scheduling {
  import opened Entities
  import opened Protocol
  import opened Drain
  import opened Registry

  /** The oldest PENDING task of the scope. */
  ghost predicate IsOldestPending(tasks: map<string, Task>, order: seq<string>, scope: Option<set<string>>, t: string) {
    exists n :: 0 <= n < |order| && order[n] == t && Assignable(tasks, scope, t)
      && forall k :: 0 <= k < n ==> !Assignable(tasks, scope, order[k])
  }

  /** `requeue_tasks_for_worker` when it has gone through the first `n` tasks. */
  ghost function RequeuedUpTo(tasks: map<string, Task>, order: seq<string>, n: nat, w: string): map<string, Task>
    requires n <= |order|
  {
    map t | t in tasks :: if t in order[..n] && tasks[t].OwnedBy(w) then RequeueTask(tasks[t]) else tasks[t]
  }

  predicate Retryable(tasks: map<string, Task>, w: string, t: string) {
    t in tasks && tasks[t].OwnedBy(w) && tasks[t].attempt < MAX_TASK_ATTEMPTS
  }

  /** The tasks `w` loses that have an attempt left, among the first `n` submitted, in order. */
  ghost function Retried(tasks: map<string, Task>, order: seq<string>, n: nat, w: string): seq<string>
    requires n <= |order|
  {
    if n == 0 then []
    else Retried(tasks, order, n - 1, w) + if Retryable(tasks, w, order[n - 1]) then [order[n - 1]] else []
  }

  lemma {:induction false} RetriedExactly(tasks: map<string, Task>, order: seq<string>, n: nat, w: string)
    requires n <= |order|
    ensures forall t :: t in Retried(tasks, order, n, w) <==> Retryable(tasks, w, t) && t in order[..n]
  {
    if n > 0 {
      RetriedExactly(tasks, order, n - 1, w);
      assert order[..n] == order[..n - 1] + [order[n - 1]];
    }
  }

  lemma {:induction false} RetriedInOrder(tasks: map<string, Task>, order: seq<string>, n: nat, w: string)
    requires n <= |order|
    ensures InOrderOf(order, n, Retried(tasks, order, n, w))
  {
    if n == 0 {
      assert PickedAt(order, 0, [], []);
    } else {
      RetriedInOrder(tasks, order, n - 1, w);
      PickNext(order, n - 1, Retried(tasks, order, n - 1, w));
      assert Retried(tasks, order, n - 1, w) + [] == Retried(tasks, order, n - 1, w);
    }
  }

  function ReleaseOwner(workers: map<string, Worker>, owner: Option<string>): map<string, Worker> {
    if owner.Some? then Release(workers, owner.value) else workers
  }

  lemma RequeuedAll(tasks: map<string, Task>, order: seq<string>, w: string)
    requires forall t :: t in tasks ==> t in order
    ensures RequeuedUpTo(tasks, order, |order|, w) == Requeue(tasks, {w})
  {
    assert order[..|order|] == order;
  }

  lemma RequeuedOneMore(tasks: map<string, Task>, order: seq<string>, n: nat, w: string)
    requires n < |order| && Distinct(order) && order[n] in tasks
    ensures var done := RequeuedUpTo(tasks, order, n, w);
            var t := order[n];
            && done[t] == tasks[t]
            && RequeuedUpTo(tasks, order, n + 1, w) == if tasks[t].OwnedBy(w) then done[t := RequeueTask(tasks[t])] else done
  {
    assert order[..n + 1] == order[..n] + [order[n]];
  }

  class Scheduler {
    const manager: WorkerManager
    var tasks: map<string, Task>
    var order: seq<string>

    ghost predicate Valid()
      reads this, manager
    {
      manager.Valid() && Distinct(order) && forall t :: t in order <==> t in tasks
    }

    constructor (manager: WorkerManager)
      requires manager.Valid()
      ensures Valid() && this.manager == manager && tasks == map[] && order == []
    {
      this.manager, tasks, order := manager, map[], [];
    }

    method Submit(id: string, taskType: string, payload: Payload) returns (ok: bool)
      requires Valid()
      modifies this
      ensures Valid() && ok == (|id| > 0 && |taskType| > 0 && id !in old(tasks))
      ensures tasks == if ok then old(tasks)[id := Task(taskType, payload, Pending, None, 0)] else old(tasks)
      ensures order == if ok then old(order) + [id] else old(order)
    {
      if |id| == 0 || |taskType| == 0 || id in tasks { return false; }
      tasks, order := tasks[id := Task(taskType, payload, Pending, None, 0)], order + [id];
      return true;
    }

    /** Gives the task to the first IDLE worker; it fails exactly when the task is unknown, not
        PENDING, or no worker is IDLE. */
    method Assign(t: string) returns (r: Result<string>)
      requires Valid()
      modifies `tasks, manager`workers
      ensures Valid()
      ensures r.Err? ==> tasks == old(tasks) && manager.workers == old(manager.workers)
      ensures r == Err("TaskNotFound") <==> t !in old(tasks)
      ensures r == Err("NotPending") <==> t in old(tasks) && !old(tasks)[t].status.Pending?
      ensures r == Err("NoAvailableWorker") <==>
                Assignable(old(tasks), None, t) && forall w :: w in old(manager.workers) ==> !old(manager.workers)[w].status.Idle?
      ensures r.Err? ==> r.reason in {"TaskNotFound", "NotPending", "NoAvailableWorker"}
      ensures r.Ok? ==> IsFirstIdle(old(manager.workers), manager.order, r.value) && r.value in old(manager.workers)
      ensures r.Ok? ==> tasks == GiveTask(old(tasks), t, r.value)
      ensures r.Ok? ==>
                manager.workers == old(manager.workers)[r.value := old(manager.workers)[r.value].(status := Busy)]
    {
      if t !in tasks { return Err("TaskNotFound"); }
      if !tasks[t].status.Pending? { return Err("NotPending"); }
      var w := manager.FirstIdle();
      if w.None? { return Err("NoAvailableWorker"); }
      tasks := tasks[t := tasks[t].(status := Assigned, worker := w, attempt := tasks[t].attempt + 1)];
      var _ := manager.UpdateStatus(w.value, Busy);
      return Ok(w.value);
    }

    /** Assigns the oldest PENDING task of the scope to the first IDLE worker; `None` exactly when
        there is no such task or no such worker. */
    method AssignNext(scope: Option<set<string>>) returns (r: Option<(string, string)>)
      requires Valid()
      modifies `tasks, manager`workers
      ensures Valid()
      ensures r.None? ==> tasks == old(tasks) && manager.workers == old(manager.workers)
      ensures r.None? ==> forall t, w :: Assignable(tasks, scope, t) && w in manager.workers ==> !manager.workers[w].status.Idle?
      ensures r.Some? ==> IsOldestPending(old(tasks), order, scope, r.value.0) && Assignable(old(tasks), scope, r.value.0)
      ensures r.Some? ==> IsFirstIdle(old(manager.workers), manager.order, r.value.1)
      ensures r.Some? ==> r.value.1 in old(manager.workers) && old(manager.workers)[r.value.1].status.Idle?
      ensures r.Some? ==> tasks == GiveTask(old(tasks), r.value.0, r.value.1)
      ensures r.Some? ==>
                manager.workers == old(manager.workers)[r.value.1 := old(manager.workers)[r.value.1].(status := Busy)]
    {
      for n := 0 to |order|
        invariant tasks == old(tasks) && manager.workers == old(manager.workers)
        invariant forall k :: 0 <= k < n ==> !Assignable(tasks, scope, order[k])
      {
        var t := order[n];
        if Assignable(tasks, scope, t) {
          var w := Assign(t);
          return if w.Ok? then Some((t, w.value)) else None;
        }
      }
      return None;
    }

    /** `false` is the raised error: the task is unknown or not ASSIGNED. */
    method Start(t: string) returns (ok: bool)
      requires Valid()
      modifies `tasks
      ensures Valid() && ok == (t in old(tasks) && old(tasks)[t].status.Assigned?)
      ensures tasks == if ok then old(tasks)[t := old(tasks)[t].(status := Running)] else old(tasks)
    {
      if t !in tasks || !tasks[t].status.Assigned? { return false; }
      tasks := tasks[t := tasks[t].(status := Running)];
      return true;
    }

    method ReleaseWorker(worker: Option<string>)
      requires Valid()
      modifies manager`workers
      ensures Valid()
      ensures manager.workers == ReleaseOwner(old(manager.workers), worker)
    {
      if worker.None? { return; }
      if worker.value in manager.workers && manager.workers[worker.value].status.Draining? { return; }
      var _ := manager.UpdateStatus(worker.value, Idle);
    }

    /** `complete_task` and `fail_task`: only the first checks the status it finds. */
    method Finish(t: string, completed: bool) returns (ok: bool)
      requires Valid()
      modifies `tasks, manager`workers
      ensures Valid() && ok == (t in old(tasks) && (completed ==> old(tasks)[t].InFlight()))
      ensures !ok ==> tasks == old(tasks) && manager.workers == old(manager.workers)
      ensures ok ==> tasks == old(tasks)[t := old(tasks)[t].(status := if completed then Completed else TaskFailed)]
      ensures ok ==> manager.workers == ReleaseOwner(old(manager.workers), old(tasks)[t].worker)
    {
      if t !in tasks || (completed && !tasks[t].InFlight()) { return false; }
      tasks := tasks[t := tasks[t].(status := if completed then Completed else TaskFailed)];
      ReleaseWorker(tasks[t].worker);
      return true;
    }

    method RequeueIfOwned(t: string, w: string) returns (retried: bool)
      requires Valid() && t in tasks
      modifies `tasks
      ensures Valid() && retried == (old(tasks)[t].OwnedBy(w) && old(tasks)[t].attempt < MAX_TASK_ATTEMPTS)
      ensures tasks == if old(tasks)[t].OwnedBy(w) then old(tasks)[t := RequeueTask(old(tasks)[t])] else old(tasks)
    {
      var task := tasks[t];
      if task.worker != Some(w) || !task.InFlight() { return false; }
      retried := task.attempt < MAX_TASK_ATTEMPTS;
      tasks := tasks[t := task.(worker := None, status := if retried then Pending else TaskFailed)];
    }

    /** The loop over all tasks does to the whole table at once what `Requeue` says, and returns
        exactly the tasks that will be tried again. */
    method RequeueTasksForWorker(w: string) returns (requeued: seq<string>)
      requires Valid()
      modifies `tasks
      ensures Valid() && tasks == Requeue(old(tasks), {w}) && requeued == Retried(old(tasks), order, |order|, w)
    {
      requeued := [];
      ghost var before := tasks;
      var n := 0;
      while n < |order|
        invariant n <= |order| && tasks.Keys == before.Keys
        invariant tasks == RequeuedUpTo(before, order, n, w)
        invariant requeued == Retried(before, order, n, w)
      {
        RequeuedOneMore(before, order, n, w);
        assert order[n] in tasks && tasks[order[n]] == before[order[n]];
        var retried := RequeueIfOwned(order[n], w);
        if retried { requeued := requeued + [order[n]]; }
        n := n + 1;
      }
      RequeuedAll(before, order, w);
    }
  }
}
