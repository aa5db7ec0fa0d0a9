/** Which worker owns which task in flight, in runs where no worker id is registered again while
    a task in flight names it. */
module Ownership {
  import opened Entities
  import opened Protocol
  import opened Invariant
  import opened DispatchSteps
  import opened Runs
  import opened Traces

  /** Tasks in flight have distinct workers. */
  ghost predicate OneOwner(s: State) {
    forall t, u, w :: t in s.tasks && u in s.tasks && s.tasks[t].OwnedBy(w) && s.tasks[u].OwnedBy(w) ==> t == u
  }

  predicate MayOwn(status: WorkerStatus) { status.Busy? || status.Draining? || status.Stopped? }

  ghost predicate OwnersLive(s: State) {
    forall t, w :: t in s.tasks && s.tasks[t].OwnedBy(w) && w in s.workers ==> MayOwn(s.workers[w].status)
  }

  ghost predicate Owns(s: State, w: string) {
    exists t :: t in s.tasks && s.tasks[t].OwnedBy(w)
  }

  ghost predicate BusyOwns(s: State) {
    forall w :: w in s.workers && s.workers[w].status.Busy? ==> Owns(s, w)
  }

  ghost predicate OwnInv(s: State) { OneOwner(s) && OwnersLive(s) && BusyOwns(s) }

  // ----- Tasks -----

  lemma FrameOwn(s: State, r: State)
    requires OwnInv(s) && r.tasks == s.tasks && r.workers == s.workers
    ensures OwnInv(r)
  {
    SameTasksSameOwners(s, r);
  }

  lemma SameTasksSameOwners(s: State, r: State)
    requires r.tasks == s.tasks
    ensures forall w :: Owns(r, w) == Owns(s, w)
  {
  }

  /** Tasks keep their owners, and no worker becomes BUSY. */
  lemma KeepBusyOwns(s: State, r: State)
    requires BusyOwns(s)
    requires forall v :: v in r.workers && r.workers[v].status.Busy? ==> v in s.workers && s.workers[v].status.Busy?
    requires forall u, v :: u in s.tasks && s.tasks[u].OwnedBy(v) && v in r.workers && r.workers[v].status.Busy? ==>
               u in r.tasks && r.tasks[u].OwnedBy(v)
    ensures BusyOwns(r)
  {
    forall v | v in r.workers && r.workers[v].status.Busy? ensures Owns(r, v) {
      assert Owns(s, v);
      var u :| u in s.tasks && s.tasks[u].OwnedBy(v);
      assert r.tasks[u].OwnedBy(v);
    }
  }

  lemma SubmitOwn(s: State, t: string, ty: string, p: Payload)
    requires OwnInv(s)
    ensures OwnInv(DoSubmit(s, t, ty, p))
  {
    KeepBusyOwns(s, DoSubmit(s, t, ty, p));
  }

  lemma AssignOwn(s: State, t: string, w: string)
    requires OwnInv(s) && Enabled(s, AssignTask(t, w))
    ensures OwnInv(DoAssign(s, t, w))
  {
    var r := DoAssign(s, t, w);
    assert r.tasks[t].OwnedBy(w);
    forall v | v in r.workers && r.workers[v].status.Busy? ensures Owns(r, v) {
      if v != w {
        assert Owns(s, v);
        var u :| u in s.tasks && s.tasks[u].OwnedBy(v);
        assert r.tasks[u].OwnedBy(v);
      }
    }
  }

  lemma RequeueOwn(s: State, ws: set<string>)
    requires OwnInv(s)
    ensures OwnInv(RequeueState(s, ws))
  {
    var r := RequeueState(s, ws);
    forall t, w | t in r.tasks && r.tasks[t].OwnedBy(w) ensures r.tasks[t] == s.tasks[t] && w !in ws {}
    KeepBusyOwns(s, r);
  }

  // ----- Dispatches -----

  lemma SendOwn(s: State, i: nat)
    requires OwnInv(s) && StartsAssigned(s, i) && s.tasks[s.dispatches[i].task].worker.value in s.connections
    ensures OwnInv(Send(s, i))
  {
    var r := Send(s, i);
    forall t, w | t in r.tasks ensures r.tasks[t].OwnedBy(w) == s.tasks[t].OwnedBy(w) {}
    KeepBusyOwns(s, r);
  }

  lemma FinishOwn(s: State, i: nat, ok: bool, response: Response)
    requires Typed(s) && CaptureInv(s) && OwnInv(s)
    requires i < |s.dispatches| && s.dispatches[i].Awaiting? && Current(s, s.dispatches[i])
    ensures OwnInv(Finish(s, i, ok, response))
  {
    var d := s.dispatches[i];
    var r := Finish(s, i, ok, response);
    CurrentIsRunning(s, i);
    forall t, w | t in r.tasks && r.tasks[t].OwnedBy(w) ensures s.tasks[t].OwnedBy(w) && t != d.task {}
    assert s.tasks[d.task].OwnedBy(d.worker);
    KeepBusyOwns(s, r);
  }

  lemma BounceOwn(s: State, i: nat)
    requires OwnInv(s) && StartsAssigned(s, i)
    ensures OwnInv(RecordIfTerminal(Bounce(s, i), s.dispatches[i].task, Unreachable(s.dispatches[i].task, s.tasks[s.dispatches[i].task].attempt)))
  {
    var t := s.dispatches[i].task;
    RequeueOwn(s, {s.tasks[t].worker.value});
    FrameOwn(RequeueState(s, {s.tasks[t].worker.value}), RecordIfTerminal(Bounce(s, i), t, Unreachable(t, s.tasks[t].attempt)));
  }

  lemma StartOwn(s: State, i: nat)
    requires Typed(s) && TaskInv(s) && OwnInv(s) && i < |s.dispatches| && s.dispatches[i].Spawned?
    ensures OwnInv(DoStart(s, i))
  {
    var t := s.dispatches[i].task;
    assert TaskOk(s.workers, s.tasks[t]);
    if !s.tasks[t].status.Assigned? {
      FrameOwn(s, DoStart(s, i));
    } else {
      StartIsSendOrBounce(s, i);
      if s.tasks[t].worker.value in s.connections { SendOwn(s, i); } else { BounceOwn(s, i); }
    }
  }

  lemma ResumeErrorOwn(s: State, i: nat)
    requires Typed(s) && OwnInv(s) && i < |s.dispatches| && s.dispatches[i].Awaiting?
    ensures OwnInv(DoResumeError(s, i))
  {
    var d := s.dispatches[i];
    if Current(s, d) {
      RequeueOwn(s, {d.worker});
      FrameOwn(RequeueState(s, {d.worker}), DoResumeError(s, i));
    } else {
      FrameOwn(s, DoResumeError(s, i));
    }
  }

  lemma ResumeReplyOwn(s: State, i: nat, m: Message)
    requires Typed(s) && CaptureInv(s) && OwnInv(s) && i < |s.dispatches| && s.dispatches[i].Awaiting?
    ensures OwnInv(DoResumeReply(s, i, m))
  {
    ReplyIsFinishThenClose(s, i, m);
    if Current(s, s.dispatches[i]) && !m.body.StatuslessResult? {
      FinishOwn(s, i, Succeeded(m), WorkerReply(m));
      FrameOwn(Finish(s, i, Succeeded(m), WorkerReply(m)), DoResumeReply(s, i, m));
    } else {
      FrameOwn(s, DoResumeReply(s, i, m));
    }
  }

  // ----- Workers -----

  /** A worker becomes DRAINING or STOPPED, or IDLE while it owns nothing. */
  lemma UpdateWorkerOwn(s: State, r: State, w: string, v: Worker)
    requires OwnInv(s) && r.tasks == s.tasks && r.workers == s.workers[w := v]
    requires if v.status.Idle? then OwnsNone(s, w) else v.status.Draining? || v.status.Stopped?
    ensures OwnInv(r)
  {
    KeepBusyOwns(s, r);
  }

  lemma ExitOwn(s: State, l: nat)
    requires Typed(s) && OwnInv(s) && l < |s.links|
    ensures OwnInv(Exit(s, l))
  {
    var r := Exit(s, l);
    if r.workers == s.workers {
      FrameOwn(s, r);
    } else {
      UpdateWorkerOwn(s, r, s.links[l].owner.value, r.workers[s.links[l].owner.value]);
    }
  }

  lemma HandleRequestOwn(s: State, l: nat, body: Body)
    requires Typed(s) && OwnInv(s) && l < |s.links|
    requires body.Register? && RegistrationAccepted(s.workers, body.workerId, body.host, body.port) ==> OwnsNone(s, body.workerId)
    ensures OwnInv(HandleRequest(s, l, body))
  {
    var r := HandleRequest(s, l, body);
    if r.workers == s.workers {
      FrameOwn(s, r);
    } else {
      UpdateWorkerOwn(s, r, body.workerId, r.workers[body.workerId]);
    }
  }

  lemma ReceiveOwn(s: State, l: nat, m: Message)
    requires Typed(s) && OwnInv(s) && Enabled(s, Receive(l, m)) && Calm(s, Receive(l, m))
    ensures OwnInv(DoReceive(s, l, m))
  {
    if Superseded(s, l) {
      ExitOwn(s, l);
    } else if Handled(s, l, m) {
      HandleRequestOwn(s, l, m.body);
    } else {
      FrameOwn(s, DoReceive(s, l, m));
    }
  }

  lemma FinishAckOwn(s: State, l: nat)
    requires Typed(s) && OwnInv(s) && Enabled(s, FinishAck(l))
    ensures OwnInv(DoFinishAck(s, l))
  {
    if s.links[l].phase.AckingShutdown? && s.links[l].owner.Some? && s.links[l].pending == map[] {
      ExitOwn(s, l);
    } else {
      FrameOwn(s, DoFinishAck(s, l));
    }
  }

  // ----- Runs -----

  lemma QuietOwn(s: State, step: Step)
    requires Typed(s) && OwnInv(s) && Enabled(s, step)
    requires step.SendDone? || step.SendRaises? || step.CloseDone? || step.CloseFails? || step.Accept?
             || step.WaitForTasks? || step.WaiterResumes? || step.WaiterTimesOut?
    ensures OwnInv(Apply(s, step))
  {
    FrameOwn(s, Apply(s, step));
  }

  lemma StepOwn(s: State, step: Step)
    requires Inv(s) && OwnInv(s) && Enabled(s, step) && Calm(s, step)
    ensures OwnInv(Apply(s, step))
  {
    match step
    case SubmitTask(t, ty, p) => SubmitOwn(s, t, ty, p);
    case AssignTask(t, w) => AssignOwn(s, t, w);
    case StartDispatch(i) => StartOwn(s, i);
    case SendFails(i) => ResumeErrorOwn(s, i);
    case ResumeWithReply(i) => ResumeReplyOwn(s, i, ReplyOf(s, i));
    case ResumeWithError(i) => ResumeErrorOwn(s, i);
    case Receive(l, m) => ReceiveOwn(s, l, m);
    case FinishAck(l) => FinishAckOwn(s, l);
    case Disconnect(l) => ExitOwn(s, l);
    case HeartbeatTimeout(stale) => RequeueOwn(s, stale);
    case _ => QuietOwn(s, step);
  }

  lemma {:induction false} RunOwn(s: State, steps: seq<Step>, env: Env)
    requires Inv(s) && OwnInv(s) && IsRun(s, steps, env) && env.calm
    ensures OwnInv(Exec(s, steps, env))
    decreases |steps|
  {
    if steps != [] {
      StepInv(s, steps[0]);
      StepOwn(s, steps[0]);
      RunOwn(Apply(s, steps[0]), steps[1..], env);
    }
  }

  lemma RegisterBreaks(s: State, l: nat, m: Message)
    requires Typed(s) && l < |s.links| && Handled(s, l, m) && m.body.Register?
    requires RegistrationAccepted(s.workers, m.body.workerId, m.body.host, m.body.port)
    requires !OwnsNone(s, m.body.workerId)
    ensures !OwnersLive(DoReceive(s, l, m))
  {
    var r := DoReceive(s, l, m);
    var t :| t in s.tasks && s.tasks[t].OwnedBy(m.body.workerId);
    assert r.tasks[t].OwnedBy(m.body.workerId) && r.workers[m.body.workerId].status.Idle?;
  }

  /** A step keeps ownership exactly when it does not register a worker that a task in flight names. */
  lemma CalmIsExact(s: State, step: Step)
    requires Inv(s) && OwnInv(s) && Enabled(s, step)
    ensures OwnInv(Apply(s, step)) <==> Calm(s, step)
  {
    if Calm(s, step) { StepOwn(s, step); } else { RegisterBreaks(s, step.link, step.message); }
  }
}
