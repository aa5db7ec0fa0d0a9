/** What holds in every state of every run, with no assumption on the environment. */
module Invariant {
  import opened Entities
  import opened RequestIds
  import opened Protocol

  /** Attempts are bounded and a task names a worker exactly while it should. */
  ghost predicate TaskInv(s: State) {
    forall t :: t in s.tasks ==> TaskOk(s.workers, s.tasks[t])
  }

  predicate TaskOk(workers: map<string, Worker>, task: Task) {
    && task.attempt <= MAX_TASK_ATTEMPTS
    && (task.status.Pending? ==> task.attempt < MAX_TASK_ATTEMPTS && task.worker.None?)
    && (task.InFlight() ==> task.worker.Some? && task.worker.value in workers)
    && (!task.status.Pending? ==> task.attempt >= 1)
    && (task.status.TaskFailed? && task.worker.None? ==> task.attempt == MAX_TASK_ATTEMPTS)
  }

  /** A failed worker owns nothing. */
  ghost predicate FailedOwnsNone(s: State) {
    forall t, w :: t in s.tasks && s.tasks[t].OwnedBy(w) && w in s.workers ==> !s.workers[w].status.WorkerFailed?
  }

  /** A started dispatch captured an attempt its task really had, and a task that is
      ASSIGNED at that attempt number has not been started at it. */
  ghost predicate CaptureInv(s: State) {
    forall i :: 0 <= i < |s.dispatches| && s.dispatches[i].Started() && s.dispatches[i].task in s.tasks ==>
      CaptureOk(s.tasks[s.dispatches[i].task], s.dispatches[i])
  }

  predicate CaptureOk(task: Task, d: Dispatch)
    requires d.Started()
  {
    && 1 <= d.attempt <= task.attempt
    && (d.attempt == task.attempt ==> !task.status.Assigned?)
    && (d.Awaiting? && task.IsAttempt(d.worker, d.attempt) ==> task.status.Running?)
    && (d.Closing? ==> task.Terminal() && d.attempt == task.attempt)
    && (d.RaisedAtClose? ==> task.Terminal() && d.attempt == task.attempt)
    && !d.RaisedAtComplete?
  }

  /** No two dispatches ever captured the same attempt of the same task. */
  ghost predicate UniqueInv(s: State) {
    forall i, j :: 0 <= i < j < |s.dispatches| ==> Apart(s.dispatches[i], s.dispatches[j])
  }

  predicate Apart(d: Dispatch, e: Dispatch) {
    d.Started() && e.Started() && d.task == e.task ==> d.attempt != e.attempt
  }

  ghost predicate HasSpawned(s: State, t: string) {
    exists i :: 0 <= i < |s.dispatches| && s.dispatches[i] == Spawned(t)
  }

  ghost predicate HasHolder(s: State, t: string, w: string, a: nat) {
    exists i :: 0 <= i < |s.dispatches| && s.dispatches[i].Holds(t, w, a)
  }

  ghost predicate HasCasualty(s: State, t: string, a: nat) {
    exists i :: 0 <= i < |s.dispatches| && s.dispatches[i] == RaisedInFlight(t, a)
  }

  /** Work in flight has a dispatch: one about to start, one holding the attempt, or the one that
      died of an uncaught error while it held it. */
  ghost predicate LiveInv(s: State) {
    && (forall t :: t in s.tasks && s.tasks[t].status.Assigned? ==> HasSpawned(s, t))
    && (forall t :: t in s.tasks && s.tasks[t].status.Running? && s.tasks[t].worker.Some? ==>
          HasHolder(s, t, s.tasks[t].worker.value, s.tasks[t].attempt) || HasCasualty(s, t, s.tasks[t].attempt))
  }

  /** A link's pending table holds exactly the sends suspended on it. */
  ghost predicate PendingInv(s: State) {
    && (forall i :: 0 <= i < |s.dispatches| && s.dispatches[i].Awaiting? ==> InTable(s, s.dispatches[i]))
    && (forall l, id :: 0 <= l < |s.links| && id in s.links[l].pending ==> HasSend(s, l, id))
  }

  predicate InTable(s: State, d: Dispatch)
    requires d.Awaiting?
  {
    d.link < |s.links| && AttemptRequestId(d.task, d.attempt) in s.links[d.link].pending
  }

  ghost predicate HasSend(s: State, l: nat, id: string) {
    exists i :: 0 <= i < |s.dispatches| && IsSend(s.dispatches[i], l, id)
  }

  predicate IsSend(d: Dispatch, l: nat, id: string) {
    d.Awaiting? && d.link == l && AttemptRequestId(d.task, d.attempt) == id
  }

  ghost predicate HasClosing(s: State, t: string) {
    exists i :: 0 <= i < |s.dispatches| && s.dispatches[i].Closing? && s.dispatches[i].task == t
  }

  ghost predicate HasLostClose(s: State, t: string) {
    exists i :: 0 <= i < |s.dispatches| && s.dispatches[i].RaisedAtClose? && s.dispatches[i].task == t
  }

  predicate GivenUp(task: Task) { task.status.TaskFailed? && task.worker.None? }

  /** Only terminal tasks are recorded, a suspended close has recorded nothing yet, and an
      unrecorded terminal task is accounted for. */
  ghost predicate RecordInv(s: State) {
    && (forall t :: t in s.responses ==> t in s.tasks && s.tasks[t].Terminal())
    && (forall i :: 0 <= i < |s.dispatches| && (s.dispatches[i].Closing? || s.dispatches[i].RaisedAtClose?) ==>
          s.dispatches[i].task !in s.responses)
    && (forall t :: t in s.tasks && s.tasks[t].Terminal() && t !in s.responses ==>
          HasClosing(s, t) || HasLostClose(s, t) || GivenUp(s.tasks[t]))
  }

  /** An open future is the registered one of an unrecorded task, and a resolved one holds
      the registry's entry. */
  ghost predicate SlotInv(s: State) {
    && (forall t :: t in s.slotOf ==> s.slotOf[t] < |s.slots| && s.slots[s.slotOf[t]].task == t)
    && (forall f :: 0 <= f < |s.slots| ==> SlotOk(s, f, s.slots[f]))
  }

  predicate SlotOk(s: State, f: nat, slot: Slot) {
    && (slot.state.Open? ==> slot.task in s.slotOf && s.slotOf[slot.task] == f && slot.task !in s.responses)
    && (slot.state.Resolved? ==> slot.task in s.responses && s.responses[slot.task] == slot.state.response)
  }

  ghost predicate WaiterInv(s: State) {
    forall k :: 0 <= k < |s.waiters| ==> WaiterOk(s, s.waiters[k])
  }

  ghost predicate WaiterOk(s: State, w: Waiter) {
    match w
    case Waiting(ids, got, held) =>
      && (forall t :: t in ids ==> t in got || t in held)
      && (forall t :: t in got ==> t in s.responses && s.responses[t] == got[t])
      && (forall t :: t in held ==> held[t] < |s.slots| && s.slots[held[t]].task == t)
    case Finished(ids, results) =>
      && |results| == |ids|
      && (forall n :: 0 <= n < |ids| ==> ids[n] in s.responses && s.responses[ids[n]] == results[n])
    case _ => true
  }

  ghost predicate Inv(s: State) {
    && Typed(s) && TaskInv(s) && FailedOwnsNone(s)
    && CaptureInv(s) && UniqueInv(s) && LiveInv(s) && PendingInv(s)
    && RecordInv(s) && SlotInv(s) && WaiterInv(s)
  }

  /** The part of the invariant that reads only tasks, dispatches and recorded responses. */
  ghost predicate Core(s: State) {
    && Typed(s) && TaskInv(s) && CaptureInv(s) && UniqueInv(s) && LiveInv(s) && RecordInv(s)
  }

  lemma InitInv() ensures Inv(Init) {}

  // ----- Steps on connections only -----

  ghost predicate SameDispatchSide(s: State, r: State) {
    && r.tasks == s.tasks && r.dispatches == s.dispatches && r.responses == s.responses
    && r.slots == s.slots && r.slotOf == s.slotOf && r.waiters == s.waiters
    && s.workers.Keys <= r.workers.Keys
  }

  lemma FrameDispatchSide(s: State, r: State)
    requires Inv(s) && Typed(r) && SameDispatchSide(s, r)
    ensures Core(r) && SlotInv(r) && WaiterInv(r)
  {
    forall t | t in r.tasks ensures TaskOk(r.workers, r.tasks[t]) { assert TaskOk(s.workers, s.tasks[t]); }
    assert forall t :: HasSpawned(s, t) == HasSpawned(r, t);
    assert forall t, w, a :: HasHolder(s, t, w, a) == HasHolder(r, t, w, a);
    assert forall t, a :: HasCasualty(s, t, a) == HasCasualty(r, t, a);
    assert forall t :: HasClosing(s, t) == HasClosing(r, t);
    assert forall t :: HasLostClose(s, t) == HasLostClose(r, t);
    forall f | 0 <= f < |r.slots| ensures SlotOk(r, f, r.slots[f]) { assert SlotOk(s, f, s.slots[f]); }
    forall k | 0 <= k < |r.waiters| ensures WaiterOk(r, r.waiters[k]) { assert WaiterOk(s, s.waiters[k]); }
  }

  ghost predicate SamePendingKeys(s: State, r: State) {
    && |s.links| <= |r.links|
    && (forall l :: 0 <= l < |s.links| ==> r.links[l].pending.Keys == s.links[l].pending.Keys)
    && (forall l :: |s.links| <= l < |r.links| ==> r.links[l].pending == map[])
  }

  lemma FramePending(s: State, r: State)
    requires PendingInv(s) && r.dispatches == s.dispatches && SamePendingKeys(s, r)
    ensures PendingInv(r)
  {
    forall i | 0 <= i < |r.dispatches| && r.dispatches[i].Awaiting? ensures InTable(r, r.dispatches[i]) {
      assert InTable(s, s.dispatches[i]);
    }
    forall l, id | 0 <= l < |r.links| && id in r.links[l].pending ensures HasSend(r, l, id) {
      assert HasSend(s, l, id);
    }
  }

  /** Registration, draining and stopping never put a worker in flight into FAILED. */
  ghost predicate NoNewFailures(s: State, r: State) {
    forall w :: w in r.workers && r.workers[w].status.WorkerFailed? ==> w in s.workers && s.workers[w].status.WorkerFailed?
  }

  ghost predicate ConnectionOnly(s: State, r: State) {
    SameDispatchSide(s, r) && SamePendingKeys(s, r) && NoNewFailures(s, r)
  }

  lemma ExitIsConnectionOnly(s: State, l: nat)
    requires Typed(s) && l < |s.links|
    ensures ConnectionOnly(s, Exit(s, l))
  {
  }

  lemma HandleRequestIsConnectionOnly(s: State, l: nat, body: Body)
    requires Typed(s) && l < |s.links|
    ensures ConnectionOnly(s, HandleRequest(s, l, body))
  {
  }

  lemma ReceiveIsConnectionOnly(s: State, l: nat, m: Message)
    requires Typed(s) && l < |s.links|
    ensures ConnectionOnly(s, DoReceive(s, l, m))
  {
    ExitIsConnectionOnly(s, l);
    HandleRequestIsConnectionOnly(s, l, m.body);
  }

  lemma FinishAckIsConnectionOnly(s: State, l: nat)
    requires Typed(s) && l < |s.links|
    ensures ConnectionOnly(s, DoFinishAck(s, l))
  {
    var link := s.links[l];
    if link.phase.AckingShutdown? && link.owner.Some? && link.pending == map[] {
      ExitIsConnectionOnly(s, l);
    } else if link.phase.AckingRegister? {
      InstallIsConnectionOnly(s, l, link.(phase := Reading, owner := Some(link.phase.worker)), s.connections[link.phase.worker := l]);
    } else {
      InstallIsConnectionOnly(s, l, link.(phase := Reading), s.connections);
    }
  }

  lemma InstallIsConnectionOnly(s: State, l: nat, link: Link, c: map<string, nat>)
    requires l < |s.links| && link.pending == s.links[l].pending
    ensures ConnectionOnly(s, s.(links := s.links[l := link], connections := c))
  {
  }

  lemma ConnectionOnlyInv(s: State, r: State)
    requires Inv(s) && Typed(r) && ConnectionOnly(s, r)
    ensures Inv(r)
  {
    FrameDispatchSide(s, r);
    FramePending(s, r);
  }

  // ----- Scheduler steps -----

  lemma AddTaskTables(s: State, r: State, t: string, k: Task)
    requires Typed(s) && TaskInv(s) && FailedOwnsNone(s) && CaptureInv(s) && t !in s.tasks
    requires r == s.(tasks := s.tasks[t := k]) && k.status.Pending? && k.attempt == 0 && k.worker.None?
    ensures Typed(r) && TaskInv(r) && FailedOwnsNone(r) && CaptureInv(r)
  {
    forall u | u in r.tasks ensures TaskOk(r.workers, r.tasks[u]) {
      if u != t { assert TaskOk(s.workers, s.tasks[u]); }
    }
    forall i | 0 <= i < |r.dispatches| && r.dispatches[i].Started()
      ensures CaptureOk(r.tasks[r.dispatches[i].task], r.dispatches[i])
    {
      assert CaptureOk(s.tasks[s.dispatches[i].task], s.dispatches[i]);
    }
  }

  lemma AddTaskLive(s: State, r: State, t: string, k: Task)
    requires LiveInv(s) && RecordInv(s) && t !in s.tasks && r == s.(tasks := s.tasks[t := k]) && k.status.Pending?
    ensures LiveInv(r) && RecordInv(r)
  {
    SameHolders(s, r);
  }

  lemma SubmitInv(s: State, t: string, ty: string, p: Payload)
    requires Inv(s)
    ensures Inv(DoSubmit(s, t, ty, p))
  {
    var r := DoSubmit(s, t, ty, p);
    if r != s {
      var k := Task(ty, p, Pending, None, 0);
      AddTaskTables(s, r, t, k);
      AddTaskLive(s, r, t, k);
      SameSendsPending(s, r);
      RegistryFrame(s, r);
    }
  }

  /** Dispatch lookups read only the dispatch table. */
  lemma SameHolders(s: State, r: State)
    requires s.dispatches == r.dispatches
    ensures forall t :: HasSpawned(s, t) == HasSpawned(r, t)
    ensures forall t, w, a :: HasHolder(s, t, w, a) == HasHolder(r, t, w, a)
    ensures forall t, a :: HasCasualty(s, t, a) == HasCasualty(r, t, a)
    ensures forall t :: HasClosing(s, t) == HasClosing(r, t)
    ensures forall t :: HasLostClose(s, t) == HasLostClose(r, t)
  {
  }

  lemma SameSendsPending(s: State, r: State)
    requires PendingInv(s) && r.dispatches == s.dispatches && r.links == s.links
    ensures PendingInv(r)
  {
    FramePending(s, r);
  }

  lemma RegistryFrame(s: State, r: State)
    requires SlotInv(s) && WaiterInv(s)
    requires r.responses == s.responses && r.slots == s.slots && r.slotOf == s.slotOf && r.waiters == s.waiters
    ensures SlotInv(r) && WaiterInv(r)
  {
    forall f | 0 <= f < |r.slots| ensures SlotOk(r, f, r.slots[f]) { assert SlotOk(s, f, s.slots[f]); }
    forall k | 0 <= k < |r.waiters| ensures WaiterOk(r, r.waiters[k]) { assert WaiterOk(s, s.waiters[k]); }
  }

  lemma RequeueTaskInv(s: State, ws: set<string>)
    requires Inv(s)
    ensures TaskInv(RequeueState(s, ws)) && FailedOwnsNone(RequeueState(s, ws))
  {
    var r := RequeueState(s, ws);
    forall t | t in r.tasks ensures TaskOk(r.workers, r.tasks[t]) { assert TaskOk(s.workers, s.tasks[t]); }
  }

  lemma RequeueCaptureInv(s: State, ws: set<string>)
    requires Inv(s)
    ensures Typed(RequeueState(s, ws)) && CaptureInv(RequeueState(s, ws)) && UniqueInv(RequeueState(s, ws))
  {
    var r := RequeueState(s, ws);
    forall i | 0 <= i < |r.dispatches| && r.dispatches[i].Started()
      ensures CaptureOk(r.tasks[r.dispatches[i].task], r.dispatches[i])
    {
      assert CaptureOk(s.tasks[s.dispatches[i].task], s.dispatches[i]);
    }
  }

  lemma RequeueLiveInv(s: State, ws: set<string>)
    requires LiveInv(s)
    ensures LiveInv(RequeueState(s, ws))
  {
    var r := RequeueState(s, ws);
    SameHolders(s, r);
    forall t | t in r.tasks && r.tasks[t].InFlight() ensures r.tasks[t] == s.tasks[t] {}
  }

  lemma RequeueRecordInv(s: State, ws: set<string>)
    requires RecordInv(s)
    ensures RecordInv(RequeueState(s, ws))
  {
    var r := RequeueState(s, ws);
    SameHolders(s, r);
    forall t | t in r.tasks && s.tasks[t].Terminal() ensures r.tasks[t] == s.tasks[t] {}
    forall t | t in r.tasks && r.tasks[t].Terminal() ensures s.tasks[t].Terminal() || GivenUp(r.tasks[t]) {}
  }

  /** Losing any set of workers keeps the invariant. */
  lemma RequeueInv(s: State, ws: set<string>)
    requires Inv(s)
    ensures Inv(RequeueState(s, ws))
  {
    var r := RequeueState(s, ws);
    RequeueTaskInv(s, ws);
    RequeueCaptureInv(s, ws);
    RequeueLiveInv(s, ws);
    RequeueRecordInv(s, ws);
    SameSendsPending(s, r);
    RegistryFrame(s, r);
  }

  lemma AssignTaskInv(s: State, t: string, w: string)
    requires Inv(s) && Enabled(s, AssignTask(t, w))
    ensures TaskInv(DoAssign(s, t, w)) && FailedOwnsNone(DoAssign(s, t, w))
  {
    var r := DoAssign(s, t, w);
    forall u | u in r.tasks ensures TaskOk(r.workers, r.tasks[u]) { assert TaskOk(s.workers, s.tasks[u]); }
  }

  lemma AssignCaptureInv(s: State, t: string, w: string)
    requires Inv(s) && Enabled(s, AssignTask(t, w))
    ensures Typed(DoAssign(s, t, w)) && CaptureInv(DoAssign(s, t, w))
  {
    var r := DoAssign(s, t, w);
    forall i | 0 <= i < |r.dispatches| && r.dispatches[i].Started()
      ensures CaptureOk(r.tasks[r.dispatches[i].task], r.dispatches[i])
    {
      assert CaptureOk(s.tasks[s.dispatches[i].task], s.dispatches[i]);
    }
  }

  lemma AssignLiveInv(s: State, t: string, w: string)
    requires PendingInv(s) && UniqueInv(s) && LiveInv(s) && Enabled(s, AssignTask(t, w))
    ensures PendingInv(DoAssign(s, t, w)) && UniqueInv(DoAssign(s, t, w)) && LiveInv(DoAssign(s, t, w))
  {
    var r := DoAssign(s, t, w);
    AppendDispatch(s, r, Spawned(t));
    assert r.dispatches[|s.dispatches|] == Spawned(t);
  }

  lemma AssignRecordInv(s: State, t: string, w: string)
    requires PendingInv(s) && UniqueInv(s) && RecordInv(s) && Enabled(s, AssignTask(t, w))
    ensures RecordInv(DoAssign(s, t, w))
  {
    AppendDispatch(s, DoAssign(s, t, w), Spawned(t));
  }

  lemma AssignInv(s: State, t: string, w: string)
    requires Inv(s) && Enabled(s, AssignTask(t, w))
    ensures Inv(DoAssign(s, t, w))
  {
    AssignTaskInv(s, t, w);
    AssignCaptureInv(s, t, w);
    AssignLiveInv(s, t, w);
    AssignRecordInv(s, t, w);
    RegistryFrame(s, DoAssign(s, t, w));
  }

  /** Appending a dispatch keeps every lookup that succeeded. */
  lemma AppendDispatch(s: State, r: State, d: Dispatch)
    requires PendingInv(s) && UniqueInv(s) && r.links == s.links
    requires d.Spawned? && r.dispatches == s.dispatches + [d]
    ensures PendingInv(r) && UniqueInv(r)
    ensures forall t :: HasSpawned(s, t) ==> HasSpawned(r, t)
    ensures forall t, w, a :: HasHolder(s, t, w, a) ==> HasHolder(r, t, w, a)
    ensures forall t, a :: HasCasualty(s, t, a) ==> HasCasualty(r, t, a)
    ensures forall t :: HasClosing(s, t) ==> HasClosing(r, t)
    ensures forall t :: HasLostClose(s, t) ==> HasLostClose(r, t)
  {
    forall i, j | 0 <= i < j < |r.dispatches| ensures Apart(r.dispatches[i], r.dispatches[j]) {
      if j < |s.dispatches| { assert Apart(s.dispatches[i], s.dispatches[j]); }
    }
    forall i | 0 <= i < |r.dispatches| && r.dispatches[i].Awaiting? ensures InTable(r, r.dispatches[i]) {
      assert InTable(s, s.dispatches[i]);
    }
    forall l, id | 0 <= l < |r.links| && id in r.links[l].pending ensures HasSend(r, l, id) {
      assert HasSend(s, l, id);
      var i :| 0 <= i < |s.dispatches| && IsSend(s.dispatches[i], l, id);
      assert r.dispatches[i] == s.dispatches[i];
    }
    forall t | HasSpawned(s, t) ensures HasSpawned(r, t) {
      var i :| 0 <= i < |s.dispatches| && s.dispatches[i] == Spawned(t);
      assert r.dispatches[i] == s.dispatches[i];
    }
    forall t, w, a | HasHolder(s, t, w, a) ensures HasHolder(r, t, w, a) {
      var i :| 0 <= i < |s.dispatches| && s.dispatches[i].Holds(t, w, a);
      assert r.dispatches[i] == s.dispatches[i];
    }
    forall t, a | HasCasualty(s, t, a) ensures HasCasualty(r, t, a) {
      var i :| 0 <= i < |s.dispatches| && s.dispatches[i] == RaisedInFlight(t, a);
      assert r.dispatches[i] == s.dispatches[i];
    }
    forall t | HasClosing(s, t) ensures HasClosing(r, t) {
      var i :| 0 <= i < |s.dispatches| && s.dispatches[i].Closing? && s.dispatches[i].task == t;
      assert r.dispatches[i] == s.dispatches[i];
    }
    forall t | HasLostClose(s, t) ensures HasLostClose(r, t) {
      var i :| 0 <= i < |s.dispatches| && s.dispatches[i].RaisedAtClose? && s.dispatches[i].task == t;
      assert r.dispatches[i] == s.dispatches[i];
    }
  }
}
