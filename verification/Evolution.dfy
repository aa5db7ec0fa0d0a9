/** How one step may change a task, the registry and the worker table. */
module Evolution {
  import opened Entities
  import opened Protocol
  import opened Invariant
  import opened DispatchSteps

  /** The moves of a task that is not being chosen: started, requeued or given up, finished. */
  ghost predicate TaskAdvances(k: Task, k': Task) {
    || k' == k
    || (k.status.Assigned? && k' == k.(status := Running))
    || (k.InFlight() && k' == k.(status := if k.attempt < 3 then Pending else TaskFailed, worker := None))
    || (k.status.Running? && k'.Terminal() && k' == k.(status := k'.status))
  }

  ghost predicate TaskIsAssigned(k: Task, k': Task) {
    k.status.Pending? && k'.worker.Some? &&
    k' == k.(status := Assigned, worker := k'.worker, attempt := k.attempt + 1)
  }

  ghost predicate TasksMove(s: State, r: State, chosen: Option<string>) {
    forall t :: t in s.tasks ==>
      t in r.tasks && if chosen == Some(t) then TaskIsAssigned(s.tasks[t], r.tasks[t]) else TaskAdvances(s.tasks[t], r.tasks[t])
  }

  function AssignedBy(step: Step): Option<string> {
    if step.AssignTask? then Some(step.id) else None
  }

  /** A task appears as PENDING at attempt 0, by being submitted. */
  ghost predicate OnlyNewPending(s: State, r: State) {
    forall t :: t in r.tasks && t !in s.tasks ==>
      r.tasks[t].status.Pending? && r.tasks[t].attempt == 0 && r.tasks[t].worker.None?
  }

  /** The registry only gains entries. */
  ghost predicate RegistryGrows(s: State, r: State) {
    forall t :: t in s.responses ==> t in r.responses && r.responses[t] == s.responses[t]
  }

  ghost predicate Moves(s: State, r: State, chosen: Option<string>) {
    TasksMove(s, r, chosen) && OnlyNewPending(s, r) && RegistryGrows(s, r)
  }

  lemma SameTasksMove(s: State, r: State)
    requires r.tasks == s.tasks && RegistryGrows(s, r)
    ensures Moves(s, r, None)
  {
  }

  lemma RequeueMoves(s: State, ws: set<string>)
    ensures Moves(s, RequeueState(s, ws), None)
  {
  }

  /** Recording a response on top of a move is still one move. */
  lemma MoveThenRecord(s: State, q: State, t: string, response: Response)
    requires Moves(s, q, None) && q.responses == s.responses && t !in s.responses && t in q.tasks
    requires t in q.slotOf ==> q.slotOf[t] < |q.slots|
    ensures Moves(s, RecordIfTerminal(q, t, response), None)
  {
  }

  lemma RetireMoves(s: State, q: State, i: nat, response: Response)
    requires Typed(q) && Moves(s, q, None) && i < |q.dispatches| && q.dispatches[i].Awaiting?
    ensures Moves(s, Retire(q, i, response), None)
  {
  }

  lemma ResumeErrorMoves(s: State, i: nat)
    requires Typed(s) && CaptureInv(s) && RecordInv(s) && i < |s.dispatches| && s.dispatches[i].Awaiting?
    ensures Moves(s, DoResumeError(s, i), None)
  {
    var d := s.dispatches[i];
    var response := Unreachable(d.task, d.attempt);
    ResumeErrorIsLostThenRetired(s, i);
    if Current(s, d) {
      var q := RequeueState(s, {d.worker});
      RequeueMoves(s, {d.worker});
      RetireMoves(s, q, i, response);
      CurrentIsRunning(s, i);
      InFlightUnclaimed(s, d.task);
      MoveThenRecord(s, Retire(q, i, response), d.task, response);
    } else {
      SameTasksMove(s, DoResumeError(s, i));
    }
  }

  lemma FinishMoves(s: State, i: nat, ok: bool, response: Response)
    requires Typed(s) && CaptureInv(s) && i < |s.dispatches| && s.dispatches[i].Awaiting? && Current(s, s.dispatches[i])
    ensures Moves(s, Finish(s, i, ok, response), None)
  {
    CurrentIsRunning(s, i);
  }

  lemma CloseAfterFinishMoves(s: State, q: State, i: nat)
    requires Typed(q) && Moves(s, q, None) && q.responses == s.responses && i < |q.dispatches| && q.dispatches[i].Closing?
    requires q.dispatches[i].task !in s.responses
    ensures Moves(s, DoCloseDone(q, i), None)
  {
    MoveThenRecord(s, q, q.dispatches[i].task, q.dispatches[i].response);
  }

  lemma ResumeReplyMoves(s: State, i: nat, m: Message)
    requires Typed(s) && CaptureInv(s) && RecordInv(s) && i < |s.dispatches| && s.dispatches[i].Awaiting?
    ensures Moves(s, DoResumeReply(s, i, m), None)
  {
    ReplyIsFinishThenClose(s, i, m);
    if Current(s, s.dispatches[i]) && !m.body.StatuslessResult? {
      CurrentIsRunning(s, i);
      InFlightUnclaimed(s, s.dispatches[i].task);
      FinishMoves(s, i, Succeeded(m), WorkerReply(m));
      CloseAfterFinishMoves(s, Finish(s, i, Succeeded(m), WorkerReply(m)), i);
    } else {
      SameTasksMove(s, DoResumeReply(s, i, m));
    }
  }

  lemma CloseDoneMoves(s: State, i: nat)
    requires Typed(s) && RecordInv(s) && i < |s.dispatches| && s.dispatches[i].Closing?
    ensures Moves(s, DoCloseDone(s, i), None)
  {
  }

  lemma StartMoves(s: State, i: nat)
    requires Typed(s) && TaskInv(s) && CaptureInv(s) && RecordInv(s) && i < |s.dispatches| && s.dispatches[i].Spawned?
    ensures Moves(s, DoStart(s, i), None)
  {
    var t := s.dispatches[i].task;
    assert TaskOk(s.workers, s.tasks[t]);
    if s.tasks[t].status.Assigned? {
      var w := s.tasks[t].worker.value;
      StartIsSendOrBounce(s, i);
      if w !in s.connections {
        RequeueMoves(s, {w});
        InFlightUnclaimed(s, t);
        MoveThenRecord(s, Bounce(s, i), t, Unreachable(t, s.tasks[t].attempt));
      }
    } else {
      SameTasksMove(s, DoStart(s, i));
    }
  }

  lemma ConnectionMoves(s: State, step: Step)
    requires Typed(s) && Enabled(s, step)
    requires step.Accept? || step.Receive? || step.FinishAck? || step.Disconnect?
    ensures SameDispatchSide(s, Apply(s, step))
  {
    match step
    case Accept =>
    case Receive(l, m) => ReceiveIsConnectionOnly(s, l, m);
    case FinishAck(l) => FinishAckIsConnectionOnly(s, l);
    case Disconnect(l) => ExitIsConnectionOnly(s, l);
  }

  lemma DispatchMoves(s: State, step: Step)
    requires Inv(s) && Enabled(s, step)
    requires step.StartDispatch? || step.SendFails? || step.SendRaises? || step.ResumeWithReply? || step.ResumeWithError? || step.CloseDone?
    ensures Moves(s, Apply(s, step), None)
  {
    match step
    case SendRaises(i) => SameTasksMove(s, Strand(s, i));
    case StartDispatch(i) => StartMoves(s, i);
    case SendFails(i) => ResumeErrorMoves(s, i);
    case ResumeWithReply(i) => ResumeReplyMoves(s, i, ReplyOf(s, i));
    case ResumeWithError(i) => ResumeErrorMoves(s, i);
    case CloseDone(i) => CloseDoneMoves(s, i);
  }

  lemma QuietMoves(s: State, step: Step)
    requires Typed(s) && Enabled(s, step)
    requires step.SendDone? || step.CloseFails? || step.WaitForTasks? || step.WaiterResumes? || step.WaiterTimesOut?
    ensures Moves(s, Apply(s, step), None)
  {
    SameTasksMove(s, Apply(s, step));
  }

  lemma SchedulerMoves(s: State, step: Step)
    requires Typed(s) && Enabled(s, step) && (step.SubmitTask? || step.AssignTask? || step.HeartbeatTimeout?)
    ensures Moves(s, Apply(s, step), AssignedBy(step))
  {
    if step.HeartbeatTimeout? { RequeueMoves(s, step.stale); }
  }

  /** Every step only moves tasks and grows the registry. */
  lemma StepMoves(s: State, step: Step)
    requires Inv(s) && Enabled(s, step)
    ensures Moves(s, Apply(s, step), AssignedBy(step))
  {
    if step.SubmitTask? || step.AssignTask? || step.HeartbeatTimeout? {
      SchedulerMoves(s, step);
    } else if step.Accept? || step.Receive? || step.FinishAck? || step.Disconnect? {
      ConnectionMoves(s, step);
      SameTasksMove(s, Apply(s, step));
    } else if step.StartDispatch? || step.SendFails? || step.SendRaises? || step.ResumeWithReply? || step.ResumeWithError? || step.CloseDone? {
      DispatchMoves(s, step);
    } else {
      QuietMoves(s, step);
    }
  }
}
