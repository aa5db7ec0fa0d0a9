/** What a stopped worker still owns and sends: exactly when it comes to own started work, and why
    no current send names it in runs that install connections safely. */
module Stopping {
  import opened Entities
  import opened Protocol
  import opened Invariant
  import opened DispatchSteps
  import opened Runs
  import opened Traces
  import opened Stranding

  // ----- What a stopped worker owns -----

  /** A stopped worker owns at most tasks whose dispatch has not started, and has no connection to start them on. */
  ghost predicate StoppedOwns(s: State) {
    forall t, w :: t in s.tasks && s.tasks[t].OwnedBy(w) && w in s.workers && s.workers[w].status.Stopped? ==>
      s.tasks[t].status.Assigned? && w !in s.connections
  }

  ghost predicate RunsFor(s: State, w: string) {
    exists t :: t in s.tasks && s.tasks[t].OwnedBy(w) && s.tasks[t].status.Running?
  }

  /** The handler's exit would stop its worker: the connection is current, the worker is DRAINING and
      nothing is pending on the connection. */
  predicate StopsOwner(s: State, l: nat) {
    && l < |s.links| && s.links[l].owner.Some? && s.links[l].pending == map[]
    && var w := s.links[l].owner.value;
       w in s.connections && s.connections[w] == l && w in s.workers && s.workers[w].status.Draining?
  }

  /** The handler exits because its connection is lost or its SHUTDOWN is acknowledged. */
  predicate Leaves(s: State, step: Step, l: nat) {
    step == Disconnect(l) || (step == FinishAck(l) && l < |s.links| && s.links[l].phase.AckingShutdown?)
  }

  /** It does so, and stops a worker that owns a RUNNING task. */
  ghost predicate StopsRunning(s: State, step: Step) {
    (step.Disconnect? || step.FinishAck?) && Leaves(s, step, step.link) && StopsOwner(s, step.link)
    && RunsFor(s, s.links[step.link].owner.value)
  }

  /** A connection is installed for a stopped worker that owns a task in flight. */
  ghost predicate InstallsForStopped(s: State, step: Step) {
    && step.FinishAck? && step.link < |s.links| && s.links[step.link].phase.AckingRegister?
    && var w := s.links[step.link].phase.worker; w in s.workers && s.workers[w].status.Stopped? && !OwnsNone(s, w)
  }

  ghost predicate FewerConnections(s: State, r: State) {
    forall w :: w in r.connections ==> w in s.connections && r.connections[w] == s.connections[w]
  }

  /** No worker is newly stopped, and no task of a stopped one is started. */
  ghost predicate NoneStops(s: State, r: State) {
    && FewerConnections(s, r)
    && (forall w :: w in r.workers && r.workers[w].status.Stopped? ==> w in s.workers && s.workers[w].status.Stopped?)
    && (forall t, w :: t in r.tasks && r.tasks[t].OwnedBy(w) && w in r.workers && r.workers[w].status.Stopped? ==>
          t in s.tasks && s.tasks[t] == r.tasks[t])
  }

  lemma KeepStopped(s: State, r: State)
    requires StoppedOwns(s) && NoneStops(s, r)
    ensures StoppedOwns(r)
  {
  }

  lemma SameStops(s: State, r: State)
    requires r.tasks == s.tasks && r.workers == s.workers && r.connections == s.connections
    ensures NoneStops(s, r)
  {
  }

  lemma SchedulerStops(s: State, step: Step)
    requires Typed(s) && Enabled(s, step) && (step.SubmitTask? || step.AssignTask? || step.HeartbeatTimeout?)
    ensures NoneStops(s, Apply(s, step))
  {
  }

  /** What follows touches neither tasks, workers nor connections. */
  lemma NoneStopsThenSame(s: State, q: State, r: State)
    requires NoneStops(s, q) && r.tasks == q.tasks && r.workers == q.workers && r.connections == q.connections
    ensures NoneStops(s, r)
  {
  }

  lemma RequeueStops(s: State, ws: set<string>)
    ensures NoneStops(s, RequeueState(s, ws))
  {
  }

  lemma SendStops(s: State, i: nat)
    requires StoppedOwns(s) && StartsAssigned(s, i) && s.tasks[s.dispatches[i].task].worker.value in s.connections
    requires s.tasks[s.dispatches[i].task].worker.value in s.workers
    ensures NoneStops(s, Send(s, i))
  {
    var t := s.dispatches[i].task;
    assert s.tasks[t].OwnedBy(s.tasks[t].worker.value);
  }

  lemma StartStops(s: State, i: nat)
    requires Typed(s) && TaskInv(s) && StoppedOwns(s) && i < |s.dispatches| && s.dispatches[i].Spawned?
    ensures NoneStops(s, DoStart(s, i))
  {
    var t := s.dispatches[i].task;
    assert TaskOk(s.workers, s.tasks[t]);
    if !s.tasks[t].status.Assigned? {
      SameStops(s, DoStart(s, i));
    } else {
      var w := s.tasks[t].worker.value;
      StartIsSendOrBounce(s, i);
      if w in s.connections {
        SendStops(s, i);
      } else {
        RequeueStops(s, {w});
        NoneStopsThenSame(s, RequeueState(s, {w}), DoStart(s, i));
      }
    }
  }

  lemma ErrorStops(s: State, i: nat)
    requires Typed(s) && i < |s.dispatches| && s.dispatches[i].Awaiting?
    ensures NoneStops(s, DoResumeError(s, i))
  {
    var d := s.dispatches[i];
    if Current(s, d) {
      RequeueStops(s, {d.worker});
      NoneStopsThenSame(s, RequeueState(s, {d.worker}), DoResumeError(s, i));
    } else {
      SameStops(s, DoResumeError(s, i));
    }
  }

  lemma FinishStops(s: State, i: nat, ok: bool, response: Response)
    requires Typed(s) && i < |s.dispatches| && s.dispatches[i].Awaiting?
    ensures NoneStops(s, Finish(s, i, ok, response))
  {
  }

  lemma ReplyStops(s: State, i: nat, m: Message)
    requires Typed(s) && CaptureInv(s) && i < |s.dispatches| && s.dispatches[i].Awaiting?
    ensures NoneStops(s, DoResumeReply(s, i, m))
  {
    ReplyIsFinishThenClose(s, i, m);
    if Current(s, s.dispatches[i]) && !m.body.StatuslessResult? {
      FinishStops(s, i, Succeeded(m), WorkerReply(m));
      NoneStopsThenSame(s, Finish(s, i, Succeeded(m), WorkerReply(m)), DoResumeReply(s, i, m));
    } else {
      SameStops(s, DoResumeReply(s, i, m));
    }
  }

  lemma HandleStops(s: State, l: nat, body: Body)
    requires Typed(s) && l < |s.links|
    ensures NoneStops(s, HandleRequest(s, l, body))
  {
  }

  lemma ReceiveStops(s: State, l: nat, m: Message)
    requires Typed(s) && l < |s.links|
    ensures NoneStops(s, DoReceive(s, l, m))
  {
    if Handled(s, l, m) { HandleStops(s, l, m.body); }
  }

  lemma ExitStops(s: State, l: nat)
    requires Typed(s) && StoppedOwns(s) && l < |s.links|
    ensures StoppedOwns(Exit(s, l)) <==> !(StopsOwner(s, l) && RunsFor(s, s.links[l].owner.value))
  {
    var r := Exit(s, l);
    if !StopsOwner(s, l) {
      KeepStopped(s, r);
    } else {
      var w := s.links[l].owner.value;
      if RunsFor(s, w) {
        var t :| t in s.tasks && s.tasks[t].OwnedBy(w) && s.tasks[t].status.Running?;
        assert r.tasks[t].OwnedBy(w) && r.workers[w].status.Stopped?;
      }
    }
  }

  lemma InstallStops(s: State, l: nat, w: string)
    requires Typed(s) && StoppedOwns(s) && l < |s.links| && s.links[l].phase == AckingRegister(w)
    ensures StoppedOwns(DoFinishAck(s, l)) <==> !InstallsForStopped(s, FinishAck(l))
  {
    var r := DoFinishAck(s, l);
    if InstallsForStopped(s, FinishAck(l)) {
      var t :| t in s.tasks && s.tasks[t].OwnedBy(w);
      assert r.tasks[t].OwnedBy(w) && w in r.connections;
    }
  }

  lemma FinishAckStops(s: State, l: nat)
    requires Typed(s) && StoppedOwns(s) && Enabled(s, FinishAck(l))
    ensures StoppedOwns(DoFinishAck(s, l)) <==> !StopsRunning(s, FinishAck(l)) && !InstallsForStopped(s, FinishAck(l))
  {
    if s.links[l].phase.AckingRegister? {
      InstallStops(s, l, s.links[l].phase.worker);
    } else if s.links[l].owner.Some? && s.links[l].pending == map[] {
      ExitStops(s, l);
    } else {
      SameStops(s, DoFinishAck(s, l));
      KeepStopped(s, DoFinishAck(s, l));
    }
  }

  lemma QuietStops(s: State, step: Step)
    requires Typed(s) && Enabled(s, step)
    requires step.SendDone? || step.SendRaises? || step.CloseDone? || step.CloseFails? || step.Accept?
             || step.WaitForTasks? || step.WaiterResumes? || step.WaiterTimesOut?
    ensures NoneStops(s, Apply(s, step))
  {
    SameStops(s, Apply(s, step));
  }

  lemma OtherStops(s: State, step: Step)
    requires Inv(s) && StoppedOwns(s) && Enabled(s, step) && !step.FinishAck? && !step.Disconnect?
    ensures NoneStops(s, Apply(s, step))
  {
    if step.SubmitTask? || step.AssignTask? || step.HeartbeatTimeout? {
      SchedulerStops(s, step);
    } else {
      match step
      case StartDispatch(i) => StartStops(s, i);
      case SendFails(i) => ErrorStops(s, i);
      case ResumeWithError(i) => ErrorStops(s, i);
      case ResumeWithReply(i) => ReplyStops(s, i, ReplyOf(s, i));
      case Receive(l, m) => ReceiveStops(s, l, m);
      case _ => QuietStops(s, step);
    }
  }

  /** A stopped worker comes to own started work, or a connection while it owns work, exactly when a
      step installs a connection for a stopped worker that owns a task, or ends the handler of a
      DRAINING worker with an empty table while that worker owns a RUNNING task. */
  lemma StoppedOwnsIsExact(s: State, step: Step)
    requires Inv(s) && StoppedOwns(s) && Enabled(s, step)
    ensures StoppedOwns(Apply(s, step)) <==> !StopsRunning(s, step) && !InstallsForStopped(s, step)
  {
    if step.FinishAck? {
      FinishAckStops(s, step.link);
    } else if step.Disconnect? {
      ExitStops(s, step.link);
    } else {
      OtherStops(s, step);
      KeepStopped(s, Apply(s, step));
    }
  }

  // ----- What a stopped worker is sent -----

  /** A current send is suspended on its worker's own connection, as long as that exists. */
  ghost predicate SendsOnCurrentLink(s: State) {
    forall i :: 0 <= i < |s.dispatches| && s.dispatches[i].Awaiting? && Current(s, s.dispatches[i]) ==>
      OnCurrentLink(s.connections, s.dispatches[i])
  }

  predicate OnCurrentLink(connections: map<string, nat>, d: Dispatch)
    requires d.Awaiting?
  {
    d.worker in connections ==> connections[d.worker] == d.link
  }

  predicate IsStopped(s: State, w: string) { w in s.workers && s.workers[w].status.Stopped? }

  /** No current send names a stopped worker. */
  ghost predicate StoppedSendsNothing(s: State) {
    forall i :: 0 <= i < |s.dispatches| && s.dispatches[i].Awaiting? && Current(s, s.dispatches[i]) ==>
      !IsStopped(s, s.dispatches[i].worker)
  }

  /** A stopped worker has no connection on which an ASSIGNED task of its could start. */
  ghost predicate StoppedUnlinked(s: State) {
    forall t, w :: t in s.tasks && s.tasks[t].OwnedBy(w) && s.tasks[t].status.Assigned? && IsStopped(s, w) ==>
      w !in s.connections
  }

  ghost predicate SendsInv(s: State) { SendsOnCurrentLink(s) && StoppedSendsNothing(s) && StoppedUnlinked(s) }

  predicate SameSend(d: Dispatch, e: Dispatch) {
    d.Awaiting? && e.Awaiting? && d.task == e.task && d.worker == e.worker && d.attempt == e.attempt && d.link == e.link
  }

  /** Every current send was one before. */
  ghost predicate NoNewSends(s: State, r: State) {
    forall i :: 0 <= i < |r.dispatches| && r.dispatches[i].Awaiting? && Current(r, r.dispatches[i]) ==>
      i < |s.dispatches| && SameSend(s.dispatches[i], r.dispatches[i]) && Current(s, s.dispatches[i])
  }

  /** Sends, connections and stopped workers only become fewer, and no stopped worker gains a task. */
  ghost predicate Shrinks(s: State, r: State) {
    && NoNewSends(s, r) && FewerConnections(s, r)
    && (forall w :: IsStopped(r, w) ==> IsStopped(s, w))
    && (forall t, w :: t in r.tasks && r.tasks[t].OwnedBy(w) && r.tasks[t].status.Assigned? && IsStopped(r, w) ==>
          t in s.tasks && s.tasks[t] == r.tasks[t])
  }

  lemma KeepSends(s: State, r: State)
    requires SendsInv(s) && Shrinks(s, r)
    ensures SendsInv(r)
  {
    forall i | 0 <= i < |r.dispatches| && r.dispatches[i].Awaiting? && Current(r, r.dispatches[i])
      ensures OnCurrentLink(r.connections, r.dispatches[i]) && !IsStopped(r, r.dispatches[i].worker)
    {
      assert OnCurrentLink(s.connections, s.dispatches[i]) && !IsStopped(s, s.dispatches[i].worker);
    }
  }

  lemma FrameShrinks(s: State, r: State)
    requires r.tasks == s.tasks && r.workers == s.workers && r.connections == s.connections && NoNewSends(s, r)
    ensures Shrinks(s, r)
  {
  }

  lemma SubmitShrinks(s: State, t: string, ty: string, p: Payload)
    requires Typed(s)
    ensures Shrinks(s, DoSubmit(s, t, ty, p))
  {
  }

  lemma AssignShrinks(s: State, t: string, w: string)
    requires Typed(s) && CaptureInv(s) && Enabled(s, AssignTask(t, w))
    ensures Shrinks(s, DoAssign(s, t, w))
  {
    var r := DoAssign(s, t, w);
    forall i | 0 <= i < |r.dispatches| && r.dispatches[i].Awaiting? && Current(r, r.dispatches[i])
      ensures i < |s.dispatches| && SameSend(s.dispatches[i], r.dispatches[i]) && Current(s, s.dispatches[i])
    {
      assert CaptureOk(s.tasks[s.dispatches[i].task], s.dispatches[i]);
    }
  }

  lemma RequeueShrinks(s: State, ws: set<string>)
    requires Typed(s)
    ensures Shrinks(s, RequeueState(s, ws))
  {
  }

  lemma SendSends(s: State, i: nat)
    requires SendsInv(s) && StartsAssigned(s, i) && s.tasks[s.dispatches[i].task].worker.value in s.connections
    ensures SendsInv(Send(s, i))
  {
    var r := Send(s, i);
    var t := s.dispatches[i].task;
    assert s.tasks[t].OwnedBy(s.tasks[t].worker.value);
    forall j | 0 <= j < |r.dispatches| && r.dispatches[j].Awaiting? && Current(r, r.dispatches[j])
      ensures OnCurrentLink(r.connections, r.dispatches[j]) && !IsStopped(r, r.dispatches[j].worker)
    {
      if j != i { assert OnCurrentLink(s.connections, s.dispatches[j]) && !IsStopped(s, s.dispatches[j].worker); }
    }
  }

  lemma BounceSends(s: State, i: nat)
    requires SendsInv(s) && StartsAssigned(s, i)
    ensures var t := s.dispatches[i].task;
            SendsInv(RecordIfTerminal(Bounce(s, i), t, Unreachable(t, s.tasks[t].attempt)))
  {
    var t := s.dispatches[i].task;
    var q := RequeueState(s, {s.tasks[t].worker.value});
    RequeueShrinks(s, {s.tasks[t].worker.value});
    KeepSends(s, q);
    FrameShrinks(q, RecordIfTerminal(Bounce(s, i), t, Unreachable(t, s.tasks[t].attempt)));
    KeepSends(q, RecordIfTerminal(Bounce(s, i), t, Unreachable(t, s.tasks[t].attempt)));
  }

  lemma StartSends(s: State, i: nat)
    requires Typed(s) && TaskInv(s) && SendsInv(s) && i < |s.dispatches| && s.dispatches[i].Spawned?
    ensures SendsInv(DoStart(s, i))
  {
    var t := s.dispatches[i].task;
    assert TaskOk(s.workers, s.tasks[t]);
    if !s.tasks[t].status.Assigned? {
      FrameShrinks(s, DoStart(s, i));
      KeepSends(s, DoStart(s, i));
    } else {
      StartIsSendOrBounce(s, i);
      if s.tasks[t].worker.value in s.connections { SendSends(s, i); } else { BounceSends(s, i); }
    }
  }

  lemma PopSends(s: State, i: nat, e: Dispatch)
    requires Typed(s) && SendsInv(s) && i < |s.dispatches| && s.dispatches[i].Awaiting? && !e.Awaiting?
    ensures SendsInv(PopPending(s, i).(dispatches := s.dispatches[i := e]))
  {
    var r := PopPending(s, i).(dispatches := s.dispatches[i := e]);
    FrameShrinks(s, r);
    KeepSends(s, r);
  }

  lemma RecordSends(s: State, t: string, response: Response)
    requires Typed(s) && SendsInv(s) && t in s.tasks
    ensures SendsInv(RecordIfTerminal(s, t, response))
  {
    FrameShrinks(s, RecordIfTerminal(s, t, response));
    KeepSends(s, RecordIfTerminal(s, t, response));
  }

  lemma ErrorSends(s: State, i: nat)
    requires Typed(s) && SendsInv(s) && i < |s.dispatches| && s.dispatches[i].Awaiting?
    ensures SendsInv(DoResumeError(s, i))
  {
    var d := s.dispatches[i];
    var response := Unreachable(d.task, d.attempt);
    ResumeErrorIsLostThenRetired(s, i);
    if Current(s, d) {
      var q := RequeueState(s, {d.worker});
      RequeueShrinks(s, {d.worker});
      KeepSends(s, q);
      PopSends(q, i, Returned(d.task, d.attempt, response));
      RecordSends(Retire(q, i, response), d.task, response);
    } else {
      PopSends(s, i, Returned(d.task, d.attempt, response));
    }
  }

  lemma FinishSends(s: State, i: nat, ok: bool, response: Response)
    requires Typed(s) && CaptureInv(s) && SendsInv(s)
    requires i < |s.dispatches| && s.dispatches[i].Awaiting? && Current(s, s.dispatches[i])
    ensures SendsInv(Finish(s, i, ok, response))
  {
    KeepSends(s, Finish(s, i, ok, response));
  }

  lemma CloseSends(s: State, i: nat, e: Dispatch)
    requires Typed(s) && SendsInv(s) && i < |s.dispatches| && s.dispatches[i].Closing? && !e.Awaiting?
    ensures SendsInv(s.(dispatches := s.dispatches[i := e])) && SendsInv(DoCloseDone(s, i))
  {
    FrameShrinks(s, s.(dispatches := s.dispatches[i := e]));
    KeepSends(s, s.(dispatches := s.dispatches[i := e]));
    FrameShrinks(s, DoCloseDone(s, i));
    KeepSends(s, DoCloseDone(s, i));
  }

  lemma ReplySends(s: State, i: nat, m: Message)
    requires Typed(s) && CaptureInv(s) && SendsInv(s) && i < |s.dispatches| && s.dispatches[i].Awaiting?
    ensures SendsInv(DoResumeReply(s, i, m))
  {
    var d := s.dispatches[i];
    ReplyIsFinishThenClose(s, i, m);
    if !Current(s, d) {
      PopSends(s, i, Returned(d.task, d.attempt, WorkerReply(m)));
    } else if m.body.StatuslessResult? {
      PopSends(s, i, RaisedInFlight(d.task, d.attempt));
    } else {
      var closing := Finish(s, i, Succeeded(m), WorkerReply(m));
      FinishSends(s, i, Succeeded(m), WorkerReply(m));
      CloseSends(closing, i, Spawned(d.task));
    }
  }

  // ----- Connections -----

  /** A handler that would stop its worker carries no current send of it. */
  lemma StopHasNoSend(s: State, l: nat, i: nat)
    requires Typed(s) && PendingInv(s) && SendsOnCurrentLink(s) && StopsOwner(s, l)
    requires i < |s.dispatches| && s.dispatches[i].Awaiting? && Current(s, s.dispatches[i])
    ensures s.dispatches[i].worker != s.links[l].owner.value
  {
    assert InTable(s, s.dispatches[i]) && OnCurrentLink(s.connections, s.dispatches[i]);
  }

  lemma ExitSends(s: State, l: nat)
    requires Typed(s) && PendingInv(s) && SendsInv(s) && l < |s.links|
    ensures SendsInv(Exit(s, l))
  {
    var r := Exit(s, l);
    if !StopsOwner(s, l) {
      KeepSends(s, r);
    } else {
      forall i | 0 <= i < |r.dispatches| && r.dispatches[i].Awaiting? && Current(r, r.dispatches[i])
        ensures OnCurrentLink(r.connections, r.dispatches[i]) && !IsStopped(r, r.dispatches[i].worker)
      {
        assert OnCurrentLink(s.connections, s.dispatches[i]) && !IsStopped(s, s.dispatches[i].worker);
        StopHasNoSend(s, l, i);
      }
    }
  }

  lemma HandleSends(s: State, l: nat, body: Body)
    requires Typed(s) && SendsInv(s) && l < |s.links|
    ensures SendsInv(HandleRequest(s, l, body))
  {
    KeepSends(s, HandleRequest(s, l, body));
  }

  lemma ReceiveSends(s: State, l: nat, m: Message)
    requires Typed(s) && PendingInv(s) && SendsInv(s) && l < |s.links|
    ensures SendsInv(DoReceive(s, l, m))
  {
    if Superseded(s, l) {
      ExitSends(s, l);
    } else if Handled(s, l, m) {
      HandleSends(s, l, m.body);
    } else {
      FrameShrinks(s, DoReceive(s, l, m));
      KeepSends(s, DoReceive(s, l, m));
    }
  }

  lemma InstallSends(s: State, l: nat, w: string)
    requires Typed(s) && SendsInv(s) && l < |s.links| && s.links[l].phase == AckingRegister(w) && InstallSafe(s, l, w)
    ensures SendsInv(DoFinishAck(s, l))
  {
    var r := DoFinishAck(s, l);
    forall i | 0 <= i < |r.dispatches| && r.dispatches[i].Awaiting? && Current(r, r.dispatches[i])
      ensures OnCurrentLink(r.connections, r.dispatches[i]) && !IsStopped(r, r.dispatches[i].worker)
    {
      assert OnCurrentLink(s.connections, s.dispatches[i]) && !IsStopped(s, s.dispatches[i].worker);
    }
  }

  lemma FinishAckSends(s: State, l: nat)
    requires Typed(s) && PendingInv(s) && SendsInv(s) && Enabled(s, FinishAck(l)) && SafeInstall(s, FinishAck(l))
    ensures SendsInv(DoFinishAck(s, l))
  {
    if s.links[l].phase.AckingRegister? {
      InstallSends(s, l, s.links[l].phase.worker);
    } else if s.links[l].owner.Some? && s.links[l].pending == map[] {
      ExitSends(s, l);
    } else {
      FrameShrinks(s, DoFinishAck(s, l));
      KeepSends(s, DoFinishAck(s, l));
    }
  }

  // ----- Runs -----

  lemma QuietSends(s: State, step: Step)
    requires Typed(s) && SendsInv(s) && Enabled(s, step)
    requires step.SendDone? || step.Accept? || step.WaitForTasks? || step.WaiterResumes? || step.WaiterTimesOut?
    ensures SendsInv(Apply(s, step))
  {
    FrameShrinks(s, Apply(s, step));
    KeepSends(s, Apply(s, step));
  }

  lemma SchedulerSends(s: State, step: Step)
    requires Inv(s) && SendsInv(s) && Enabled(s, step) && (step.SubmitTask? || step.AssignTask? || step.HeartbeatTimeout?)
    ensures SendsInv(Apply(s, step))
  {
    match step {
      case SubmitTask(t, ty, p) => SubmitShrinks(s, t, ty, p);
      case AssignTask(t, w) => AssignShrinks(s, t, w);
      case HeartbeatTimeout(stale) => RequeueShrinks(s, stale);
    }
    KeepSends(s, Apply(s, step));
  }

  lemma DispatchSends(s: State, step: Step)
    requires Inv(s) && SendsInv(s) && Enabled(s, step)
    requires step.StartDispatch? || step.SendFails? || step.SendRaises? || step.ResumeWithReply? || step.ResumeWithError?
             || step.CloseDone? || step.CloseFails?
    ensures SendsInv(Apply(s, step))
  {
    match step
    case StartDispatch(i) => StartSends(s, i);
    case SendFails(i) => ErrorSends(s, i);
    case SendRaises(i) => PopSends(s, i, RaisedInFlight(s.dispatches[i].task, s.dispatches[i].attempt));
    case ResumeWithReply(i) => ReplySends(s, i, ReplyOf(s, i));
    case ResumeWithError(i) => ErrorSends(s, i);
    case CloseDone(i) => CloseSends(s, i, s.dispatches[i]);
    case CloseFails(i) => CloseSends(s, i, RaisedAtClose(s.dispatches[i].task, s.dispatches[i].attempt));
  }

  /** A step that installs no connection unsafely sends nothing on behalf of a stopped worker. */
  lemma StepSends(s: State, step: Step)
    requires Inv(s) && SendsInv(s) && Enabled(s, step) && SafeInstall(s, step)
    ensures SendsInv(Apply(s, step))
  {
    if step.SubmitTask? || step.AssignTask? || step.HeartbeatTimeout? {
      SchedulerSends(s, step);
    } else if step.SendDone? || step.Accept? || step.WaitForTasks? || step.WaiterResumes? || step.WaiterTimesOut? {
      QuietSends(s, step);
    } else {
      match step
      case Receive(l, m) => ReceiveSends(s, l, m);
      case FinishAck(l) => FinishAckSends(s, l);
      case Disconnect(l) => ExitSends(s, l);
      case _ => DispatchSends(s, step);
    }
  }

  lemma {:induction false} RunSends(s: State, steps: seq<Step>, env: Env)
    requires Inv(s) && SendsInv(s) && IsRun(s, steps, env) && env.safeInstalls
    ensures SendsInv(Exec(s, steps, env))
    decreases |steps|
  {
    if steps != [] {
      StepInv(s, steps[0]);
      StepSends(s, steps[0]);
      RunSends(Apply(s, steps[0]), steps[1..], env);
    }
  }

  // ----- Runs without uncaught errors -----

  /** A worker whose task runs has a send suspended on its connection, so its handler does not stop it. */
  lemma RunningBlocksStop(s: State, step: Step)
    requires Inv(s) && SendsOnCurrentLink(s) && NoneStranded(s)
    ensures !StopsRunning(s, step)
  {
    if (step.Disconnect? || step.FinishAck?) && StopsOwner(s, step.link) {
      var w := s.links[step.link].owner.value;
      forall t | t in s.tasks && s.tasks[t].OwnedBy(w) ensures !s.tasks[t].status.Running? {
        if HasHolder(s, t, w, s.tasks[t].attempt) {
          var i :| 0 <= i < |s.dispatches| && s.dispatches[i].Holds(t, w, s.tasks[t].attempt);
          if s.tasks[t].status.Running? { StopHasNoSend(s, step.link, i); }
        } else {
          assert !Stranded(s, t);
        }
      }
    }
  }

  /** Safe installs and no uncaught error in a current dispatch suffice: a stopped worker owns
      nothing that has started. */
  lemma {:induction false} RunStop(s: State, steps: seq<Step>, env: Env)
    requires Inv(s) && NoneStranded(s) && SendsInv(s) && StoppedOwns(s) && IsRun(s, steps, env) && env.safeInstalls && env.sound
    ensures StoppedOwns(Exec(s, steps, env))
    decreases |steps|
  {
    if steps != [] {
      StepInv(s, steps[0]);
      SoundIsExact(s, steps[0]);
      StepSends(s, steps[0]);
      RunningBlocksStop(s, steps[0]);
      StoppedOwnsIsExact(s, steps[0]);
      RunStop(Apply(s, steps[0]), steps[1..], env);
    }
  }
}
