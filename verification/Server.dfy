/** The master's coroutines as code: each method is one stretch between two suspensions, and
    does to the whole state what the transition system says. */
module Server {
  import opened Entities
  import opened RequestIds
  import opened Protocol
  import opened Traces
  import opened Drain
  import opened Registry
  import opened Scheduling

  /** A connection with its handler's local state. */
  class WorkerLink {
    var owner: Option<string>
    var phase: Phase
    var pending: map<string, Future>

    constructor ()
      ensures Value() == Link(None, Reading, map[])
    {
      owner, phase, pending := None, Reading, map[];
    }

    ghost function Value(): Link
      reads this
    {
      Link(owner, phase, pending)
    }

    method Expect(id: string)
      modifies `pending
      ensures pending == old(pending)[id := Unresolved]
    {
      pending := pending[id := Unresolved];
    }

    method Forget(id: string)
      modifies `pending
      ensures pending == old(pending) - {id}
    {
      pending := pending - {id};
    }

    /** Settles the send that `id` names, if one is still unsettled. */
    method Resolve(id: string, m: Message) returns (resolved: bool)
      modifies `pending
      ensures resolved == (id in old(pending) && old(pending)[id].Unresolved?)
      ensures pending == if resolved then old(pending)[id := GotReply(m)] else old(pending)
    {
      resolved := id in pending && pending[id].Unresolved?;
      if resolved { pending := pending[id := GotReply(m)]; }
    }

    method FailAll()
      modifies `pending
      ensures pending == FailPending(old(pending))
    {
      var todo := pending.Keys;
      while todo != {}
        invariant todo <= pending.Keys == old(pending).Keys
        invariant forall id :: id in pending ==>
                    pending[id] == if id in todo then old(pending)[id] else FailPending(old(pending))[id]
      {
        var id :| id in todo;
        if pending[id].Unresolved? { pending := pending[id := GotError]; }
        todo := todo - {id};
      }
    }
  }

  /** When each worker was last heard of, once a request is handled: an accepted registration and a
      known worker's heartbeat count, nothing else. */
  ghost function BeatsAfter(beats: map<string, int>, workers: map<string, Worker>, body: Body, now: int): map<string, int> {
    match body
    case Register(w, host, port) => if RegistrationAccepted(workers, w, host, port) then beats[w := now] else beats
    case Heartbeat(w) => if w in workers then beats[w := now] else beats
    case _ => beats
  }

  /** A known worker that is heard of, by a heartbeat or by registering, is not overdue while the
      timeout runs, whatever else becomes of the registry; whether any other is stays as it was. */
  lemma HeardOfIsNotOverdue(beats: map<string, int>, workers: map<string, Worker>, body: Body, now: int,
                            after: map<string, Worker>, order: seq<string>, later: int, timeout: int, v: string)
    requires later - now <= timeout && (body.Heartbeat? || body.Register?)
    requires body.Heartbeat? ==> body.workerId in workers
    requires body.Register? ==> RegistrationAccepted(workers, body.workerId, body.host, body.port)
    ensures v in Overdue(after, BeatsAfter(beats, workers, body, now), order, |order|, later - timeout) <==>
              v != body.workerId && v in Overdue(after, beats, order, |order|, later - timeout)
  {
    OverdueExactly(after, BeatsAfter(beats, workers, body, now), order, |order|, later - timeout, v);
    OverdueExactly(after, beats, order, |order|, later - timeout, v);
  }

  ghost function PendingIds(tasks: map<string, Task>): set<string> {
    set t | t in tasks && tasks[t].status.Pending?
  }

  ghost predicate Takeable(s: State, t: string, w: string, scope: Option<set<string>>) {
    Assignable(s.tasks, scope, t) && w in s.workers && s.workers[w].status.Idle?
  }

  /** Assigning `batch`, task by task, each to an IDLE worker, leads from `s` to `r`. */
  ghost predicate AssignsInTurn(s: State, batch: seq<(string, string)>, scope: Option<set<string>>, r: State)
    decreases |batch|
  {
    if batch == [] then r == s
    else Takeable(s, batch[0].0, batch[0].1, scope) && AssignsInTurn(DoAssign(s, batch[0].0, batch[0].1), batch[1..], scope, r)
  }

  lemma {:induction false} AssignsMore(s: State, batch: seq<(string, string)>, scope: Option<set<string>>, r: State, next: (string, string))
    requires AssignsInTurn(s, batch, scope, r) && Takeable(r, next.0, next.1, scope)
    ensures AssignsInTurn(s, batch + [next], scope, DoAssign(r, next.0, next.1))
    decreases |batch|
  {
    if batch == [] {
      assert batch + [next] == [next] && [next][1..] == [];
    } else {
      AssignsMore(DoAssign(s, batch[0].0, batch[0].1), batch[1..], scope, r, next);
      assert (batch + [next])[1..] == batch[1..] + [next];
    }
  }

  lemma AssignedIsNotPending(s: State, t: string, w: string, scope: Option<set<string>>)
    requires Takeable(s, t, w, scope)
    ensures PendingIds(DoAssign(s, t, w).tasks) < PendingIds(s.tasks)
  {
    assert t in PendingIds(s.tasks) && t !in PendingIds(DoAssign(s, t, w).tasks);
  }

  ghost function AsSteps(batch: seq<(string, string)>): seq<Step> {
    if batch == [] then [] else [AssignTask(batch[0].0, batch[0].1)] + AsSteps(batch[1..])
  }

  ghost predicate BatchLeads(s: State, steps: seq<Step>, scope: Option<set<string>>, r: State) {
    Typed(s) && IsBatch(steps, scope) && IsRun(s, steps, ANY) && Exec(s, steps, ANY) == r
  }

  lemma BatchStartsWith(s: State, t: string, w: string, steps: seq<Step>, scope: Option<set<string>>, r: State)
    requires Typed(s) && Takeable(s, t, w, scope) && BatchLeads(DoAssign(s, t, w), steps, scope, r)
    ensures BatchLeads(s, [AssignTask(t, w)] + steps, scope, r)
  {
    BatchFirst(s, t, w, steps, ANY);
  }

  /** So it is a batch in the sense of a drain's round. */
  lemma {:induction false} AssignedIsABatch(s: State, batch: seq<(string, string)>, scope: Option<set<string>>, r: State)
    requires Typed(s) && AssignsInTurn(s, batch, scope, r)
    ensures BatchLeads(s, AsSteps(batch), scope, r)
    decreases |batch|
  {
    if batch != [] {
      var t, w := batch[0].0, batch[0].1;
      assert Apply(s, AssignTask(t, w)) == DoAssign(s, t, w);
      AssignedIsABatch(DoAssign(s, t, w), batch[1..], scope, r);
      BatchStartsWith(s, t, w, AsSteps(batch[1..]), scope, r);
    }
  }

  lemma RequeueTwice(tasks: map<string, Task>, ws: seq<string>, w: string)
    ensures Requeue(Requeue(tasks, Elements(ws)), {w}) == Requeue(tasks, Elements(ws + [w]))
  {
  }

  lemma FailOne(workers: map<string, Worker>, w: string)
    ensures FailWorkers(workers, {w}) ==
              if w in workers then workers[w := workers[w].(status := WorkerFailed)] else workers
  {
  }

  lemma LookUpOneMore(s: State, ids: seq<string>, n: nat)
    requires n < |ids|
    ensures Unrecorded(s, ids[..n + 1]) == Unrecorded(s, ids[..n]) + if ids[n] in s.responses then [] else [ids[n]]
    ensures Recorded(s, ids[..n + 1]) ==
              if ids[n] in s.responses then Recorded(s, ids[..n])[ids[n] := s.responses[ids[n]]] else Recorded(s, ids[..n])
  {
    assert ids[..n + 1][..n] == ids[..n];
    assert ids[..n + 1] == ids[..n] + [ids[n]];
  }

  lemma {:induction false} UnrecordedDistinct(s: State, ids: seq<string>)
    requires Distinct(ids)
    ensures Distinct(Unrecorded(s, ids))
    decreases |ids|
  {
    if ids != [] {
      var last := |ids| - 1;
      UnrecordedDistinct(s, ids[..last]);
      assert ids[last] !in Unrecorded(s, ids[..last]);
    }
  }

  ghost function Values(links: seq<WorkerLink>): (r: seq<Link>)
    reads links
    ensures |r| == |links| && forall l :: 0 <= l < |links| ==> r[l] == links[l].Value()
  {
    seq(|links|, l requires 0 <= l < |links| reads links => links[l].Value())
  }

  class Master {
    const manager: WorkerManager
    const scheduler: Scheduler
    var links: seq<WorkerLink>
    var connections: map<string, nat>
    var dispatches: seq<Dispatch>
    var responses: map<string, Response>
    var slots: seq<Slot>
    var slotOf: map<string, nat>
    var waiters: seq<Waiter>

    ghost function View(): State
      reads this, scheduler, manager, links
    {
      State(scheduler.tasks, manager.workers, Values(links), connections, dispatches, responses, slots, slotOf, waiters)
    }

    ghost predicate Valid()
      reads this, scheduler, manager, links
    {
      && scheduler.manager == manager && scheduler.Valid()
      && forall k, l :: 0 <= k < l < |links| ==> links[k] != links[l]
    }

    constructor ()
      ensures Valid() && View() == Init
    {
      var m := new WorkerManager();
      var sch := new Scheduler(m);
      manager, scheduler := m, sch;
      links, connections, dispatches, responses := [], map[], [], map[];
      slots, slotOf, waiters := [], map[], [];
    }

    method Accept()
      requires Valid() && Typed(View())
      modifies `links
      ensures Valid() && View() == Apply(old(View()), Step.Accept)
    {
      var link := new WorkerLink();
      links := links + [link];
    }

    method Submit(id: string, taskType: string, payload: Payload) returns (ok: bool)
      requires Valid() && Typed(View())
      modifies scheduler
      ensures Valid() && View() == DoSubmit(old(View()), id, taskType, payload)
    {
      ok := scheduler.Submit(id, taskType, payload);
    }

    /** `_record_task_response`. */
    method RecordResponse(t: string, r: Response)
      requires Valid() && (t in slotOf ==> slotOf[t] < |slots|)
      modifies `responses, `slots
      ensures Valid() && View() == Record(old(View()), t, r)
    {
      responses := responses[t := r];
      if t in slotOf && slots[slotOf[t]].state.Open? {
        slots := slots[slotOf[t] := slots[slotOf[t]].(state := Resolved(r))];
      }
    }

    // ----- Dispatching -----

    method Return(i: nat, t: string, a: nat, r: Response)
      requires Valid() && i < |dispatches| && t in scheduler.tasks && (t in slotOf ==> slotOf[t] < |slots|)
      modifies `dispatches, `responses, `slots
      ensures Valid()
      ensures View() == RecordIfTerminal(old(View()), t, r).(dispatches := old(dispatches)[i := Returned(t, a, r)])
    {
      if scheduler.tasks[t].Terminal() { RecordResponse(t, r); }
      dispatches := dispatches[i := Returned(t, a, r)];
    }

    /** `mark_worker_failed_and_requeue`, for a current attempt. */
    method LoseOwner(w: string)
      requires Valid()
      modifies scheduler`tasks, manager`workers
      ensures Valid() && View() == RequeueState(old(View()), {w})
    {
      FailOne(manager.workers, w);
      var _ := manager.UpdateStatus(w, WorkerFailed);
      var _ := scheduler.RequeueTasksForWorker(w);
    }

    method Send(i: nat, t: string, w: string, a: nat, l: nat)
      requires Valid() && i < |dispatches| && l < |links|
      modifies `dispatches, links
      ensures Valid() && dispatches == old(dispatches)[i := Awaiting(t, w, a, l, false)]
      ensures View() == var s := old(View());
                        s.(dispatches := dispatches, links := s.links[l := s.links[l].(
                             pending := s.links[l].pending[AttemptRequestId(t, a) := Unresolved])])
    {
      links[l].Expect(AttemptRequestId(t, a));
      dispatches := dispatches[i := Awaiting(t, w, a, l, false)];
    }

    method GiveUp(i: nat, t: string, w: string, a: nat)
      requires Valid() && i < |dispatches| && t in scheduler.tasks && (t in slotOf ==> slotOf[t] < |slots|)
      modifies `dispatches, `responses, `slots, scheduler`tasks, manager`workers
      ensures Valid()
      ensures View() == RecordIfTerminal(RequeueState(old(View()), {w}), t, Unreachable(t, a)).(
                          dispatches := old(dispatches)[i := Returned(t, a, Unreachable(t, a))])
    {
      LoseOwner(w);
      Return(i, t, a, Unreachable(t, a));
    }

    method StartDispatch(i: nat)
      requires Valid() && Typed(View()) && i < |dispatches| && dispatches[i].Spawned?
      modifies `dispatches, `responses, `slots, scheduler`tasks, manager`workers, links
      ensures Valid() && View() == DoStart(old(View()), i)
    {
      var t := dispatches[i].task;
      var task := scheduler.tasks[t];
      var started := false;
      if task.worker.Some? { started := scheduler.Start(t); }
      if !started {
        dispatches := dispatches[i := RaisedAtStart(t)];
      } else if task.worker.value in connections {
        Send(i, t, task.worker.value, task.attempt, connections[task.worker.value]);
      } else {
        GiveUp(i, t, task.worker.value, task.attempt);
      }
    }

    /** `send_task` ended with an error. */
    method ResumeWithError(i: nat)
      requires Valid() && Typed(View()) && i < |dispatches| && dispatches[i].Awaiting?
      modifies `dispatches, `responses, `slots, scheduler`tasks, manager`workers, links
      ensures Valid() && View() == DoResumeError(old(View()), i)
    {
      var d := dispatches[i];
      ghost var s := View();
      links[d.link].Forget(AttemptRequestId(d.task, d.attempt));
      assert View() == PopPending(s, i);
      if scheduler.tasks[d.task].IsAttempt(d.worker, d.attempt) {
        GiveUp(i, d.task, d.worker, d.attempt);
      } else {
        dispatches := dispatches[i := Returned(d.task, d.attempt, Unreachable(d.task, d.attempt))];
      }
    }

    /** `send_task` raised an error that is neither a connection nor a protocol error. */
    method ResumeWithUncaught(i: nat)
      requires Valid() && Typed(View()) && i < |dispatches| && dispatches[i].Awaiting?
      modifies `dispatches, links
      ensures Valid() && View() == Strand(old(View()), i)
    {
      var d := dispatches[i];
      ghost var s := View();
      links[d.link].Forget(AttemptRequestId(d.task, d.attempt));
      assert View() == PopPending(s, i);
      dispatches := dispatches[i := RaisedInFlight(d.task, d.attempt)];
    }

    method CloseDone(i: nat)
      requires Valid() && Typed(View()) && i < |dispatches| && dispatches[i].Closing?
      modifies `dispatches, `responses, `slots
      ensures Valid() && View() == DoCloseDone(old(View()), i)
    {
      var d := dispatches[i];
      Return(i, d.task, d.attempt, d.response);
    }

    method Decided(t: string, w: string, ok: bool) returns (finished: bool)
      requires Valid() && Typed(View()) && t in scheduler.tasks && scheduler.tasks[t].worker == Some(w)
      modifies scheduler`tasks, manager`workers
      ensures Valid() && finished == (ok ==> old(scheduler.tasks)[t].InFlight())
      ensures View() == if finished then Decide(old(View()), t, w, ok) else old(View())
    {
      finished := scheduler.Finish(t, ok);
    }

    /** Once the task is decided: suspend in the draining close, or record and return. */
    method FinishDispatch(i: nat, ok: bool, response: Response)
      requires Valid() && Typed(View()) && i < |dispatches| && dispatches[i].Awaiting?
      requires scheduler.tasks[dispatches[i].task].worker == Some(dispatches[i].worker)
      modifies `dispatches, `responses, `slots, scheduler`tasks, manager`workers
      ensures Valid() && View() == FinishTask(old(View()), i, ok, response)
    {
      var d := dispatches[i];
      var finished := Decided(d.task, d.worker, ok);
      if !finished {
        dispatches := dispatches[i := RaisedAtComplete(d.task, d.attempt)];
      } else if d.worker in manager.workers && manager.workers[d.worker].status.Draining? && d.worker in connections {
        dispatches := dispatches[i := Closing(d.task, d.worker, d.attempt, response)];
      } else {
        Return(i, d.task, d.attempt, response);
      }
    }

    /** `send_task` returned the reply `m`. */
    method ResumeWithReply(i: nat, m: Message)
      requires Valid() && Typed(View()) && i < |dispatches| && dispatches[i].Awaiting?
      modifies `dispatches, `responses, `slots, scheduler`tasks, manager`workers, links
      ensures Valid() && View() == DoResumeReply(old(View()), i, m)
    {
      var d := dispatches[i];
      ghost var s := View();
      links[d.link].Forget(AttemptRequestId(d.task, d.attempt));
      assert View() == PopPending(s, i);
      if scheduler.tasks[d.task].IsAttempt(d.worker, d.attempt) && m.body.StatuslessResult? {
        dispatches := dispatches[i := RaisedInFlight(d.task, d.attempt)];
      } else if scheduler.tasks[d.task].IsAttempt(d.worker, d.attempt) {
        FinishDispatch(i, m.body.TaskResult? && m.body.outcome.Success?, WorkerReply(m));
      } else {
        dispatches := dispatches[i := Returned(d.task, d.attempt, WorkerReply(m))];
      }
    }

    // ----- Connections -----

    /** A current connection is removed, and its worker is STOPPED if it drained cleanly. */
    method Unlink(l: nat)
      requires Valid() && Typed(View()) && l < |links|
      modifies `connections, manager`workers
      ensures Valid()
      ensures View() == var r := Exit(old(View()), l);
                        old(View()).(connections := r.connections, workers := r.workers)
    {
      var link := links[l];
      if link.owner.Some? && link.owner.value in connections && connections[link.owner.value] == l {
        var w := link.owner.value;
        connections := connections - {w};
        if w in manager.workers && manager.workers[w].status.Draining? && link.pending == map[] {
          var _ := manager.UpdateStatus(w, Stopped);
        }
      }
    }

    /** The handler's `finally` block. */
    method HandlerExits(l: nat)
      requires Valid() && Typed(View()) && l < |links|
      modifies `connections, manager`workers, links
      ensures Valid() && View() == Exit(old(View()), l)
    {
      Unlink(l);
      links[l].FailAll();
      links[l].phase := Exited;
    }

    method HandleRegister(l: nat, w: string, host: string, port: int, now: int)
      requires Valid() && Typed(View()) && l < |links|
      modifies manager, links
      ensures Valid() && View() == HandleRequest(old(View()), l, Register(w, host, port))
      ensures manager.beats == BeatsAfter(old(manager.beats), old(manager.workers), Register(w, host, port), now)
    {
      var r := manager.Register(w, host, port, now);
      if r.Ok? { links[l].phase := AckingRegister(w); }
    }

    method HandleShutdown(l: nat, w: string)
      requires Valid() && Typed(View()) && l < |links|
      modifies manager`workers, links
      ensures Valid() && View() == HandleRequest(old(View()), l, Shutdown(w))
      ensures w in manager.workers ==>
                !manager.workers[w].status.Registered? && !manager.workers[w].status.Idle? && !manager.workers[w].status.Busy?
      ensures w in manager.workers ==> links[l].phase.AckingShutdown?
    {
      var known := manager.Drain(w);
      if known { links[l].phase := AckingShutdown; }
    }

    /** `rpc_handler.handle_request`, then the acknowledgement is being written. */
    method Handle(l: nat, body: Body, now: int)
      requires Valid() && Typed(View()) && l < |links|
      modifies manager, links
      ensures Valid() && View() == HandleRequest(old(View()), l, body)
      ensures manager.beats == BeatsAfter(old(manager.beats), old(manager.workers), body, now)
    {
      match body
      case Register(w, host, port) => HandleRegister(l, w, host, port, now);
      case Shutdown(w) => HandleShutdown(l, w);
      case Heartbeat(w) => var _ := manager.RecordHeartbeat(w, now);
      case _ =>
    }

    /** The read loop got a message. */
    method Receive(l: nat, m: Message, now: int)
      requires Valid() && Typed(View()) && l < |links|
      modifies `connections, manager, links
      ensures Valid() && View() == DoReceive(old(View()), l, m)
      ensures manager.beats == if old(Handled(View(), l, m))
                               then BeatsAfter(old(manager.beats), old(manager.workers), m.body, now) else old(manager.beats)
    {
      var link := links[l];
      if link.owner.Some? && !(link.owner.value in connections && connections[link.owner.value] == l) {
        HandlerExits(l);
      } else {
        var resolved := link.Resolve(m.requestId, m);
        if !resolved { Handle(l, m.body, now); }
      }
    }

    /** The acknowledgement is written. */
    method FinishAck(l: nat)
      requires Valid() && Typed(View()) && l < |links|
      requires links[l].phase.AckingRegister? || links[l].phase.AckingShutdown?
      modifies `connections, manager`workers, links
      ensures Valid() && View() == DoFinishAck(old(View()), l)
    {
      var link := links[l];
      if link.phase.AckingRegister? {
        var w := link.phase.worker;
        link.owner, link.phase := Some(w), Reading;
        connections := connections[w := l];
      } else if link.owner.Some? && link.pending == map[] {
        HandlerExits(l);
      } else {
        link.phase := Reading;
      }
    }

    // ----- Scheduling -----

    method AssignOne(scope: Option<set<string>>) returns (r: Option<(string, string)>)
      requires Valid()
      modifies `dispatches, scheduler`tasks, manager`workers
      ensures Valid()
      ensures r.None? ==> View() == old(View()) && Exhausted(View(), scope)
      ensures r.Some? ==> Takeable(old(View()), r.value.0, r.value.1, scope)
      ensures r.Some? ==> View() == DoAssign(old(View()), r.value.0, r.value.1)
    {
      r := scheduler.AssignNext(scope);
      if r.Some? { dispatches := dispatches + [Spawned(r.value.0)]; }
    }

    /** The loop that assigns until nothing more can be assigned, as in the dispatcher and in a
        drain: a batch of assignments after which no IDLE worker is left, or no PENDING task. */
    method AssignAll(scope: Option<set<string>>) returns (batch: seq<(string, string)>)
      requires Valid()
      modifies `dispatches, scheduler`tasks, manager`workers
      ensures Valid() && Exhausted(View(), scope) && AssignsInTurn(old(View()), batch, scope, View())
    {
      batch := [];
      while true
        invariant Valid() && AssignsInTurn(old(View()), batch, scope, View())
        decreases PendingIds(scheduler.tasks)
      {
        ghost var s := View();
        var next := AssignOne(scope);
        if next.None? { return; }
        AssignsMore(old(View()), batch, scope, s, next.value);
        AssignedIsNotPending(s, next.value.0, next.value.1, scope);
        batch := batch + [next.value];
      }
    }

    method RequeueAll(stale: seq<string>)
      requires Valid()
      modifies scheduler`tasks
      ensures Valid() && scheduler.tasks == Requeue(old(scheduler.tasks), Elements(stale))
    {
      assert scheduler.tasks == Requeue(scheduler.tasks, Elements(stale[..0]));
      for n := 0 to |stale|
        invariant Valid() && scheduler.tasks == Requeue(old(scheduler.tasks), Elements(stale[..n]))
      {
        RequeueTwice(old(scheduler.tasks), stale[..n], stale[n]);
        assert stale[..n + 1] == stale[..n] + [stale[n]];
        var _ := scheduler.RequeueTasksForWorker(stale[n]);
      }
      assert stale[..|stale|] == stale;
    }

    /** The monitor's sweep: all stale workers fail, then their tasks are requeued one worker
        after another, which is one step of the transition system. */
    method MonitorTick(now: int, timeout: int) returns (stale: seq<string>)
      requires Valid()
      modifies scheduler`tasks, manager`workers
      ensures Valid() && View() == RequeueState(old(View()), Elements(stale))
      ensures forall w :: w in stale <==> w in old(manager.workers) && !old(manager.workers)[w].status.Stopped? && now - manager.beats[w] > timeout
    {
      stale := manager.GetStaleWorkers(now, timeout);
      forall w ensures w in stale <==> IsOverdue(old(manager.workers), manager.beats, now - timeout, w) {
        OverdueExactly(old(manager.workers), manager.beats, manager.order, |manager.order|, now - timeout, w);
      }
      RequeueAll(stale);
    }

    // ----- Waiting -----

    /** Splits the ids into what is recorded already and what is still to come. */
    method LookUp(ids: seq<string>, ghost s: State) returns (got: map<string, Response>, missing: seq<string>)
      requires s.responses == responses
      ensures got == Recorded(s, ids) && missing == Unrecorded(s, ids)
    {
      got, missing := map[], [];
      for n := 0 to |ids|
        invariant got == Recorded(s, ids[..n]) && missing == Unrecorded(s, ids[..n])
      {
        LookUpOneMore(s, ids, n);
        if ids[n] in responses { got := got[ids[n] := responses[ids[n]]]; } else { missing := missing + [ids[n]]; }
      }
      assert ids[..|ids|] == ids;
    }

    /** Gives each missing id an open future, its registered one if that is still open. */
    method OpenFutures(missing: seq<string>) returns (held: map<string, nat>)
      requires Distinct(missing) && forall t :: t in slotOf ==> slotOf[t] < |slots|
      modifies `slots, `slotOf
      ensures (slots, slotOf) == OpenSlots(old(slots), old(slotOf), missing)
      ensures held.Keys == Elements(missing) && forall t :: t in missing ==> t in slotOf && held[t] == slotOf[t]
    {
      held := map[];
      for n := 0 to |missing|
        invariant forall t :: t in slotOf ==> slotOf[t] < |slots|
        invariant OpenSlots(slots, slotOf, missing[n..]) == OpenSlots(old(slots), old(slotOf), missing)
        invariant held.Keys == Elements(missing[..n]) && forall t :: t in missing[..n] ==> t in slotOf && held[t] == slotOf[t]
      {
        var t := missing[n];
        assert missing[n..][0] == t && missing[n..][1..] == missing[n + 1..];
        assert missing[..n + 1] == missing[..n] + [t] && t !in missing[..n];
        if t !in slotOf || !slots[slotOf[t]].state.Open? {
          slots, slotOf := slots + [Slot(t, Open)], slotOf[t := |slots|];
        }
        held := held[t := slotOf[t]];
      }
      assert missing[..|missing|] == missing;
    }

    method SuspendWaiter(ids: seq<string>, got: map<string, Response>, missing: seq<string>)
      requires Valid() && Typed(View()) && Distinct(missing) && got == Recorded(View(), ids)
      modifies `slots, `slotOf, `waiters
      ensures Valid() && View() == Suspend(old(View()), ids, missing)
    {
      ghost var s := View();
      var held := OpenFutures(missing);
      assert held == map t | t in missing :: OpenSlots(s.slots, s.slotOf, missing).1[t];
      waiters := waiters + [Waiting(ids, got, held)];
    }

    method ReturnAtOnce(ids: seq<string>)
      requires Valid() && Typed(View()) && Unrecorded(View(), ids) == []
      modifies `waiters
      ensures Valid() && View() == DoWait(old(View()), ids)
    {
      ghost var s := View();
      assert forall t :: t in ids ==> t in responses by { assert forall t :: t !in Unrecorded(s, ids); }
      var recorded := responses;
      var results := seq(|ids|, n requires 0 <= n < |ids| => recorded[ids[n]]);
      assert results == RecordedInOrder(s, ids);
      waiters := waiters + [Finished(ids, results)];
    }

    /** `wait_for_tasks` up to its suspension, or to its return. */
    method WaitForTasks(ids: seq<string>)
      requires Valid() && Typed(View()) && Distinct(ids)
      modifies `slots, `slotOf, `waiters
      ensures Valid() && View() == DoWait(old(View()), ids)
    {
      var got, missing := LookUp(ids, View());
      UnrecordedDistinct(View(), ids);
      if missing == [] { ReturnAtOnce(ids); } else { SuspendWaiter(ids, got, missing); }
    }

    /** `wait_for_tasks` resumes with every future resolved and returns in the order asked. */
    method ResumeWaiter(k: nat)
      requires Valid() && Typed(View()) && k < |waiters| && waiters[k].Waiting? && AllResolved(View(), waiters[k])
      modifies `waiters
      ensures Valid() && View() == DoWaiterResumes(old(View()), k)
    {
      var w, results := waiters[k], [];
      ghost var s := View();
      for n := 0 to |w.ids|
        invariant |results| == n && View() == s
        invariant forall m :: 0 <= m < n ==> results[m] == Gathered(s, w)[m]
      {
        var t := w.ids[n];
        results := results + [if t in w.held then slots[w.held[t]].state.response else w.got[t]];
      }
      assert results == Gathered(s, w);
      waiters := waiters[k := Finished(w.ids, results)];
    }
  }
}
