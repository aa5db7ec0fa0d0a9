/** How tasks end, who hears of it, and how often they are tried. */
module Endings {
  import opened Entities
  import opened Protocol
  import opened Invariant
  import opened DispatchSteps
  import opened Runs
  import opened Evolution
  import opened Traces
  import opened Ownership
  import opened Links
  import opened Guarantees

  // ----- How a task ends -----

  predicate Over(s: State, t: string) { t in s.tasks && s.tasks[t].Terminal() }

  /** Its response is recorded, or a dispatch is suspended in, or died in, the draining close. */
  ghost predicate Accounted(s: State, t: string) {
    t in s.responses || HasClosing(s, t) || HasLostClose(s, t)
  }

  /** In flight at its last attempt, owned by one of these workers. */
  predicate AtLastAttempt(s: State, t: string, ws: set<string>) {
    t in s.tasks && OwnedByAny(s.tasks[t], ws) && s.tasks[t].attempt == MAX_TASK_ATTEMPTS
  }

  /** The heartbeat monitor gives the task up at its last attempt. */
  predicate MonitorGivesUp(s: State, step: Step, t: string) {
    step.HeartbeatTimeout? && AtLastAttempt(s, t, step.stale)
  }

  /** The task whose current dispatch loses its worker in this step, and that worker: starting without
      a connection, or a send that failed. */
  function LosesWorker(s: State, step: Step): Option<(string, string)> {
    match step
    case StartDispatch(i) =>
      if i < |s.dispatches| && s.dispatches[i].task in s.tasks then
        var u := s.dispatches[i].task;
        var task := s.tasks[u];
        if task.status.Assigned? && task.worker.Some? && task.worker.value !in s.connections then Some((u, task.worker.value))
        else None
      else None
    case SendFails(i) => LosesWorkerOf(s, i)
    case ResumeWithError(i) => LosesWorkerOf(s, i)
    case _ => None
  }

  function LosesWorkerOf(s: State, i: nat): Option<(string, string)> {
    if i < |s.dispatches| && s.dispatches[i].Awaiting? && Current(s, s.dispatches[i])
    then Some((s.dispatches[i].task, s.dispatches[i].worker)) else None
  }

  /** Another task's dispatch loses the worker both share, at this task's last attempt. */
  predicate GivenUpByAnother(s: State, step: Step, t: string) {
    var lost := LosesWorker(s, step);
    lost.Some? && lost.value.0 != t && AtLastAttempt(s, t, {lost.value.1})
  }

  predicate GivesUp(s: State, step: Step, t: string) { MonitorGivesUp(s, step, t) || GivenUpByAnother(s, step, t) }

  // ----- Before it ends -----

  /** A task that is not over is not accounted for either. */
  lemma NotOverUnaccounted(s: State, t: string)
    requires Typed(s) && CaptureInv(s) && RecordInv(s) && !Over(s, t)
    ensures !Accounted(s, t)
  {
    forall i | 0 <= i < |s.dispatches| && s.dispatches[i].task == t
      ensures !s.dispatches[i].Closing? && !s.dispatches[i].RaisedAtClose?
    {
      if s.dispatches[i].Started() { assert CaptureOk(s.tasks[t], s.dispatches[i]); }
    }
  }

  /** No response and no close of `t` is new. */
  ghost predicate NothingNew(s: State, r: State, t: string) {
    && (t in r.responses ==> t in s.responses)
    && (forall i :: 0 <= i < |r.dispatches| && (r.dispatches[i].Closing? || r.dispatches[i].RaisedAtClose?) && r.dispatches[i].task == t ==>
          i < |s.dispatches| && r.dispatches[i] == s.dispatches[i])
  }

  lemma NothingNewUnaccounted(s: State, r: State, t: string)
    requires NothingNew(s, r, t) && !Accounted(s, t)
    ensures !Accounted(r, t)
  {
    forall i | 0 <= i < |r.dispatches| && r.dispatches[i].task == t
      ensures !r.dispatches[i].Closing? && !r.dispatches[i].RaisedAtClose?
    {
      if i < |s.dispatches| && r.dispatches[i] == s.dispatches[i] {
        assert !s.dispatches[i].Closing? && !s.dispatches[i].RaisedAtClose?;
      }
    }
  }

  // ----- One step -----

  /** What losing the workers `ws` makes of `t`: over exactly at its last attempt. */
  lemma RequeueEnds(s: State, ws: set<string>, t: string)
    requires TaskInv(s) && !Over(s, t)
    ensures Over(RequeueState(s, ws), t) <==> AtLastAttempt(s, t, ws)
  {
    if t in s.tasks { assert TaskOk(s.workers, s.tasks[t]); }
  }

  /** Losing a worker to the dispatch of `u` records `u` if that ends it, and nothing else. */
  ghost predicate LostThenRecorded(s: State, r: State, u: string, w: string) {
    && r.tasks == RequeueState(s, {w}).tasks && u in r.tasks
    && (r.tasks[u].Terminal() ==> u in r.responses)
    && (forall t :: t != u ==> NothingNew(s, r, t))
  }

  lemma LossEnds(s: State, r: State, u: string, w: string, t: string)
    requires Typed(s) && TaskInv(s) && CaptureInv(s) && RecordInv(s) && !Over(s, t) && LostThenRecorded(s, r, u, w)
    ensures Over(r, t) && !Accounted(r, t) <==> t != u && AtLastAttempt(s, t, {w})
  {
    RequeueEnds(s, {w}, t);
    if t != u {
      NotOverUnaccounted(s, t);
      NothingNewUnaccounted(s, r, t);
    }
  }

  lemma ErrorLoses(s: State, i: nat)
    requires Typed(s) && i < |s.dispatches| && s.dispatches[i].Awaiting? && Current(s, s.dispatches[i])
    ensures LostThenRecorded(s, DoResumeError(s, i), s.dispatches[i].task, s.dispatches[i].worker)
  {
    ResumeErrorIsLostThenRetired(s, i);
  }

  lemma StartLoses(s: State, i: nat)
    requires StartsAssigned(s, i) && s.tasks[s.dispatches[i].task].worker.value !in s.connections
    ensures LostThenRecorded(s, DoStart(s, i), s.dispatches[i].task, s.tasks[s.dispatches[i].task].worker.value)
  {
    StartIsSendOrBounce(s, i);
  }

  /** A step that leaves no task newly over gives none up. */
  lemma SameEnds(s: State, r: State, t: string)
    requires !Over(s, t) && (t in s.tasks ==> t in r.tasks && (r.tasks[t].Terminal() ==> s.tasks[t].Terminal()))
    requires t !in s.tasks && t in r.tasks ==> r.tasks[t].status.Pending?
    ensures !Over(r, t)
  {
  }

  /** What the step made of `t` is silence exactly if the step gives it up. */
  ghost predicate SilentExactly(s: State, step: Step, r: State, t: string) {
    Over(r, t) && !Accounted(r, t) <==> GivesUp(s, step, t)
  }

  lemma ErrorEnds(s: State, step: Step, i: nat, t: string)
    requires Inv(s) && !Over(s, t) && i < |s.dispatches| && s.dispatches[i].Awaiting?
    requires step == SendFails(i) || step == ResumeWithError(i)
    ensures SilentExactly(s, step, DoResumeError(s, i), t)
  {
    var d := s.dispatches[i];
    assert LosesWorker(s, step) == LosesWorkerOf(s, i);
    if Current(s, d) {
      ErrorLoses(s, i);
      LossEnds(s, DoResumeError(s, i), d.task, d.worker, t);
    } else {
      SameEnds(s, DoResumeError(s, i), t);
    }
  }

  lemma StartEnds(s: State, i: nat, t: string)
    requires Inv(s) && !Over(s, t) && i < |s.dispatches| && s.dispatches[i].Spawned?
    ensures SilentExactly(s, StartDispatch(i), DoStart(s, i), t)
  {
    var u := s.dispatches[i].task;
    assert TaskOk(s.workers, s.tasks[u]);
    if LosesWorker(s, StartDispatch(i)).Some? {
      StartLoses(s, i);
      LossEnds(s, DoStart(s, i), u, s.tasks[u].worker.value, t);
    } else {
      if s.tasks[u].status.Assigned? { StartIsSendOrBounce(s, i); }
      SameEnds(s, DoStart(s, i), t);
    }
  }

  lemma FinishEnds(s: State, i: nat, ok: bool, response: Response, t: string)
    requires Typed(s) && !Over(s, t) && i < |s.dispatches| && s.dispatches[i].Awaiting?
    ensures var closing := Finish(s, i, ok, response);
            && (Over(closing, t) ==> HasClosing(closing, t))
            && (Over(DoCloseDone(closing, i), t) ==> t in DoCloseDone(closing, i).responses)
  {
    assert Finish(s, i, ok, response).dispatches[i].Closing?;
  }

  lemma ReplyAccounts(s: State, i: nat, m: Message, t: string)
    requires Typed(s) && CaptureInv(s) && !Over(s, t) && i < |s.dispatches| && s.dispatches[i].Awaiting?
    ensures Over(DoResumeReply(s, i, m), t) ==> Accounted(DoResumeReply(s, i, m), t)
  {
    ReplyIsFinishThenClose(s, i, m);
    if Current(s, s.dispatches[i]) && !m.body.StatuslessResult? {
      FinishEnds(s, i, Succeeded(m), WorkerReply(m), t);
    }
  }

  /** A reply ends at most its own task, which it records or leaves closing. */
  lemma ReplyEnds(s: State, i: nat, r: State, t: string)
    requires Over(r, t) ==> Accounted(r, t)
    ensures SilentExactly(s, ResumeWithReply(i), r, t)
  {
  }

  lemma MonitorEnds(s: State, stale: set<string>, t: string)
    requires Inv(s) && !Over(s, t)
    ensures SilentExactly(s, HeartbeatTimeout(stale), RequeueState(s, stale), t)
  {
    RequeueEnds(s, stale, t);
    NotOverUnaccounted(s, t);
    NothingNewUnaccounted(s, RequeueState(s, stale), t);
  }

  lemma OtherStepEnds(s: State, step: Step, t: string)
    requires Inv(s) && !Over(s, t) && Enabled(s, step)
    requires !step.StartDispatch? && !step.SendFails? && !step.ResumeWithReply? && !step.ResumeWithError? && !step.HeartbeatTimeout?
    ensures !Over(Apply(s, step), t)
  {
    if step.Receive? || step.FinishAck? || step.Disconnect? || step.Accept? { ConnectionMoves(s, step); }
  }

  lemma DispatchEnds(s: State, step: Step, r: State, t: string)
    requires Inv(s) && !Over(s, t) && Enabled(s, step) && r == Apply(s, step)
    requires step.StartDispatch? || step.SendFails? || step.ResumeWithError? || step.ResumeWithReply?
    ensures SilentExactly(s, step, r, t)
  {
    match step
    case StartDispatch(i) => StartEnds(s, i, t);
    case SendFails(i) => ErrorEnds(s, step, i, t);
    case ResumeWithError(i) => ErrorEnds(s, step, i, t);
    case ResumeWithReply(i) =>
      ReplyAccounts(s, i, ReplyOf(s, i), t);
      ReplyEnds(s, i, r, t);
  }

  /** A step ends a task with nothing recorded, and no close under way, exactly when it gives it up:
      by the monitor, or by another task's dispatch that loses the worker they share. */
  lemma EndsInSilence(s: State, step: Step, t: string)
    requires Inv(s) && !Over(s, t) && Enabled(s, step)
    ensures SilentExactly(s, step, Apply(s, step), t)
  {
    if step.StartDispatch? || step.SendFails? || step.ResumeWithError? || step.ResumeWithReply? {
      DispatchEnds(s, step, Apply(s, step), t);
    } else if step.HeartbeatTimeout? {
      MonitorEnds(s, step.stale, t);
    } else {
      OtherStepEnds(s, step, t);
    }
  }

  // ----- After it has ended -----

  /** Dispatches in or past a close are left alone. */
  ghost predicate ClosesLeft(s: State, r: State) {
    && |s.dispatches| <= |r.dispatches|
    && forall i :: 0 <= i < |s.dispatches| && (s.dispatches[i].Closing? || s.dispatches[i].RaisedAtClose?) ==>
         r.dispatches[i] == s.dispatches[i]
  }

  lemma ClosingStays(s: State, r: State, t: string)
    requires RegistryGrows(s, r) && Accounted(s, t) && ClosesLeft(s, r)
    ensures Accounted(r, t)
  {
    if HasClosing(s, t) {
      var i :| 0 <= i < |s.dispatches| && s.dispatches[i].Closing? && s.dispatches[i].task == t;
      assert r.dispatches[i].Closing? && r.dispatches[i].task == t;
    } else if HasLostClose(s, t) {
      var i :| 0 <= i < |s.dispatches| && s.dispatches[i].RaisedAtClose? && s.dispatches[i].task == t;
      assert r.dispatches[i].RaisedAtClose? && r.dispatches[i].task == t;
    }
  }

  lemma CloseEnds(s: State, i: nat, t: string)
    requires Typed(s) && CaptureInv(s) && Accounted(s, t) && i < |s.dispatches| && s.dispatches[i].Closing?
    ensures Accounted(DoCloseDone(s, i), t)
    ensures Accounted(s.(dispatches := s.dispatches[i := RaisedAtClose(s.dispatches[i].task, s.dispatches[i].attempt)]), t)
  {
    assert CaptureOk(s.tasks[s.dispatches[i].task], s.dispatches[i]);
    var e := RaisedAtClose(s.dispatches[i].task, s.dispatches[i].attempt);
    ReplaceCloseLookups(s, s.(dispatches := s.dispatches[i := e]), i, e);
    ReplaceCloseLookups(s, DoCloseDone(s, i), i, DoCloseDone(s, i).dispatches[i]);
  }

  lemma ReplaceLeavesCloses(s: State, r: State, i: nat, e: Dispatch)
    requires Replaces(s, r, i, e) && (s.dispatches[i].Spawned? || s.dispatches[i].Awaiting?)
    ensures ClosesLeft(s, r)
  {
  }

  lemma ReplyLeavesCloses(s: State, i: nat, m: Message)
    requires Typed(s) && CaptureInv(s) && i < |s.dispatches| && s.dispatches[i].Awaiting?
    ensures ClosesLeft(s, DoResumeReply(s, i, m))
  {
    ReplyIsFinishThenClose(s, i, m);
    ReplaceLeavesCloses(s, DoResumeReply(s, i, m), i, DoResumeReply(s, i, m).dispatches[i]);
  }

  lemma ErrorLeavesCloses(s: State, i: nat)
    requires Typed(s) && i < |s.dispatches| && s.dispatches[i].Awaiting?
    ensures ClosesLeft(s, DoResumeError(s, i))
  {
    ReplaceLeavesCloses(s, DoResumeError(s, i), i, DoResumeError(s, i).dispatches[i]);
  }

  lemma StartLeavesCloses(s: State, i: nat)
    requires Typed(s) && i < |s.dispatches| && s.dispatches[i].Spawned?
    ensures ClosesLeft(s, DoStart(s, i))
  {
    ReplaceLeavesCloses(s, DoStart(s, i), i, DoStart(s, i).dispatches[i]);
  }

  lemma QuietLeavesCloses(s: State, step: Step)
    requires Typed(s) && Enabled(s, step) && LeavesLinks(step) && !step.CloseDone? && !step.CloseFails?
    ensures ClosesLeft(s, Apply(s, step))
  {
  }

  lemma OtherStepsLeaveCloses(s: State, step: Step)
    requires Typed(s) && CaptureInv(s) && Enabled(s, step) && !step.CloseDone? && !step.CloseFails?
    ensures ClosesLeft(s, Apply(s, step))
  {
    match step
    case StartDispatch(i) => StartLeavesCloses(s, i);
    case SendFails(i) => ErrorLeavesCloses(s, i);
    case SendRaises(i) => ReplaceLeavesCloses(s, Strand(s, i), i, Strand(s, i).dispatches[i]);
    case ResumeWithReply(i) => ReplyLeavesCloses(s, i, ReplyOf(s, i));
    case ResumeWithError(i) => ErrorLeavesCloses(s, i);
    case Accept => ConnectionMoves(s, step);
    case Receive(_, _) => ConnectionMoves(s, step);
    case FinishAck(_) => ConnectionMoves(s, step);
    case Disconnect(_) => ConnectionMoves(s, step);
    case _ => QuietLeavesCloses(s, step);
  }

  lemma StepAccounted(s: State, step: Step, t: string)
    requires Inv(s) && Enabled(s, step) && Accounted(s, t)
    ensures Accounted(Apply(s, step), t)
  {
    if step.CloseDone? || step.CloseFails? {
      CloseEnds(s, step.index, t);
    } else {
      StepMoves(s, step);
      OtherStepsLeaveCloses(s, step);
      ClosingStays(s, Apply(s, step), t);
    }
  }

  // ----- Ended without a response -----

  /** Terminal, unrecorded, and no dispatch left that would record it. */
  ghost predicate Silent(s: State, t: string) {
    t in s.tasks && s.tasks[t].Terminal() && t !in s.responses && !HasClosing(s, t)
  }

  /** A step records, or is about to record, only a task that is in flight or already closing. */
  ghost predicate LeavesSilent(s: State, r: State) {
    forall t :: Silent(s, t) && t in r.tasks && r.tasks[t].Terminal() ==> t !in r.responses && !HasClosing(r, t)
  }

  lemma ReplaceLeavesSilent(s: State, r: State, i: nat, e: Dispatch, u: string)
    requires Replaces(s, r, i, e) && u in s.tasks && !Silent(s, u)
    requires e.Closing? ==> e.task == u
    requires forall t :: t in r.responses ==> t in s.responses || t == u
    ensures LeavesSilent(s, r)
  {
    forall t, j | Silent(s, t) && 0 <= j < |r.dispatches| && r.dispatches[j].task == t ensures !r.dispatches[j].Closing? {
      assert j != i ==> r.dispatches[j] == s.dispatches[j];
    }
  }

  lemma SameClosingsLeaveSilent(s: State, r: State)
    requires r.responses == s.responses
    requires forall i :: 0 <= i < |r.dispatches| && r.dispatches[i].Closing? ==> i < |s.dispatches| && s.dispatches[i] == r.dispatches[i]
    ensures LeavesSilent(s, r)
  {
    forall t, j | Silent(s, t) && 0 <= j < |r.dispatches| && r.dispatches[j].task == t ensures !r.dispatches[j].Closing? {
      if j < |s.dispatches| && s.dispatches[j] == r.dispatches[j] { assert !s.dispatches[j].Closing?; }
    }
  }

  lemma ErrorLeavesSilent(s: State, i: nat)
    requires Typed(s) && CaptureInv(s) && i < |s.dispatches| && s.dispatches[i].Awaiting?
    ensures LeavesSilent(s, DoResumeError(s, i))
  {
    var r := DoResumeError(s, i);
    if Current(s, s.dispatches[i]) {
      CurrentIsRunning(s, i);
      ReplaceLeavesSilent(s, r, i, r.dispatches[i], s.dispatches[i].task);
    } else {
      SameClosingsLeaveSilent(s, r);
    }
  }

  lemma FinishLeavesSilent(s: State, i: nat, ok: bool, response: Response)
    requires Typed(s) && CaptureInv(s) && i < |s.dispatches| && s.dispatches[i].Awaiting? && Current(s, s.dispatches[i])
    ensures LeavesSilent(s, Finish(s, i, ok, response)) && LeavesSilent(s, DoCloseDone(Finish(s, i, ok, response), i))
  {
    var t := s.dispatches[i].task;
    var closing := Finish(s, i, ok, response);
    var done := DoCloseDone(closing, i);
    CurrentIsRunning(s, i);
    ReplaceLeavesSilent(s, closing, i, closing.dispatches[i], t);
    assert done.dispatches == s.dispatches[i := done.dispatches[i]];
    ReplaceLeavesSilent(s, done, i, done.dispatches[i], t);
  }

  lemma ReplyLeavesSilent(s: State, i: nat, m: Message)
    requires Typed(s) && CaptureInv(s) && i < |s.dispatches| && s.dispatches[i].Awaiting?
    ensures LeavesSilent(s, DoResumeReply(s, i, m))
  {
    ReplyIsFinishThenClose(s, i, m);
    if Current(s, s.dispatches[i]) && !m.body.StatuslessResult? {
      FinishLeavesSilent(s, i, Succeeded(m), WorkerReply(m));
    } else {
      SameClosingsLeaveSilent(s, DoResumeReply(s, i, m));
    }
  }

  lemma StartLeavesSilent(s: State, i: nat)
    requires Typed(s) && i < |s.dispatches| && s.dispatches[i].Spawned?
    ensures LeavesSilent(s, DoStart(s, i))
  {
    var r := DoStart(s, i);
    var t := s.dispatches[i].task;
    if s.tasks[t].status.Assigned? {
      ReplaceLeavesSilent(s, r, i, r.dispatches[i], t);
    } else {
      SameClosingsLeaveSilent(s, r);
    }
  }

  lemma CloseDoneLeavesSilent(s: State, i: nat)
    requires Typed(s) && i < |s.dispatches| && s.dispatches[i].Closing?
    ensures LeavesSilent(s, DoCloseDone(s, i))
  {
    var r := DoCloseDone(s, i);
    assert HasClosing(s, s.dispatches[i].task);
    ReplaceLeavesSilent(s, r, i, r.dispatches[i], s.dispatches[i].task);
  }

  lemma ConnectionLeavesSilent(s: State, step: Step)
    requires Typed(s) && Enabled(s, step)
    requires step.Accept? || step.Receive? || step.FinishAck? || step.Disconnect?
    ensures LeavesSilent(s, Apply(s, step))
  {
    ConnectionMoves(s, step);
    SameClosingsLeaveSilent(s, Apply(s, step));
  }

  lemma QuietLeavesSilent(s: State, step: Step)
    requires Typed(s) && Enabled(s, step)
    requires LeavesLinks(step) && !step.CloseDone?
    ensures LeavesSilent(s, Apply(s, step))
  {
    SameClosingsLeaveSilent(s, Apply(s, step));
  }

  lemma StrandLeavesSilent(s: State, i: nat)
    requires Typed(s) && i < |s.dispatches| && s.dispatches[i].Awaiting?
    ensures LeavesSilent(s, Strand(s, i))
  {
    SameClosingsLeaveSilent(s, Strand(s, i));
  }

  lemma DispatchLeavesSilent(s: State, step: Step)
    requires Inv(s) && Enabled(s, step)
    requires step.StartDispatch? || step.SendFails? || step.SendRaises? || step.ResumeWithReply? || step.ResumeWithError? || step.CloseDone?
    ensures LeavesSilent(s, Apply(s, step))
  {
    match step
    case StartDispatch(i) => StartLeavesSilent(s, i);
    case SendFails(i) => ErrorLeavesSilent(s, i);
    case SendRaises(i) => StrandLeavesSilent(s, i);
    case ResumeWithReply(i) => ReplyLeavesSilent(s, i, ReplyOf(s, i));
    case ResumeWithError(i) => ErrorLeavesSilent(s, i);
    case CloseDone(i) => CloseDoneLeavesSilent(s, i);
  }

  lemma StepLeavesSilent(s: State, step: Step)
    requires Inv(s) && Enabled(s, step)
    ensures LeavesSilent(s, Apply(s, step))
  {
    if step.Accept? || step.Receive? || step.FinishAck? || step.Disconnect? {
      ConnectionLeavesSilent(s, step);
    } else if LeavesLinks(step) && !step.CloseDone? {
      QuietLeavesSilent(s, step);
    } else {
      DispatchLeavesSilent(s, step);
    }
  }

  /** A task that ended without a response never gets one, whatever happens afterwards. */
  lemma {:induction false} SilentForever(s: State, steps: seq<Step>, env: Env, t: string)
    requires Inv(s) && IsRun(s, steps, env) && Silent(s, t)
    ensures Silent(Exec(s, steps, env), t)
    decreases |steps|
  {
    if steps != [] {
      var q := Apply(s, steps[0]);
      StepInv(s, steps[0]);
      StepMoves(s, steps[0]);
      StepLeavesSilent(s, steps[0]);
      MovesLater(s, q, AssignedBy(steps[0]));
      SilentForever(q, steps[1..], env, t);
    }
  }

  /** So a call waiting for it never returns: it can only time out or be cancelled. */
  lemma SilentTaskStarvesWaiters(s: State, steps: seq<Step>, env: Env, t: string, k: nat)
    requires Inv(s) && IsRun(s, steps, env) && Silent(s, t)
    requires k < |Exec(s, steps, env).waiters| && Exec(s, steps, env).waiters[k].Finished?
    ensures t !in Exec(s, steps, env).waiters[k].ids
  {
    var r := Exec(s, steps, env);
    RunInv(s, steps, env);
    SilentForever(s, steps, env, t);
    assert WaiterOk(r, r.waiters[k]);
  }

  /** A dispatch that died in a close had, or was suspended in that close. */
  ghost predicate ClosesDied(s: State, r: State) {
    forall i :: 0 <= i < |r.dispatches| && r.dispatches[i].RaisedAtClose? ==>
      i < |s.dispatches| && s.dispatches[i].task == r.dispatches[i].task && (s.dispatches[i].RaisedAtClose? || s.dispatches[i].Closing?)
  }

  lemma ReplyRaisedAtClose(s: State, i: nat, m: Message)
    requires Typed(s) && CaptureInv(s) && i < |s.dispatches| && s.dispatches[i].Awaiting?
    ensures ClosesDied(s, DoResumeReply(s, i, m))
  {
    ReplyIsFinishThenClose(s, i, m);
  }

  lemma ErrorRaisedAtClose(s: State, i: nat)
    requires Typed(s) && i < |s.dispatches| && s.dispatches[i].Awaiting?
    ensures ClosesDied(s, DoResumeError(s, i))
  {
  }

  lemma StartRaisedAtClose(s: State, i: nat)
    requires Typed(s) && i < |s.dispatches| && s.dispatches[i].Spawned?
    ensures ClosesDied(s, DoStart(s, i))
  {
  }

  lemma QuietRaisedAtClose(s: State, step: Step)
    requires Typed(s) && Enabled(s, step) && LeavesLinks(step) && !step.CloseDone?
    ensures ClosesDied(s, Apply(s, step))
  {
  }

  lemma CloseDoneRaisedAtClose(s: State, i: nat)
    requires Typed(s) && i < |s.dispatches| && s.dispatches[i].Closing?
    ensures ClosesDied(s, DoCloseDone(s, i))
  {
  }

  lemma StrandRaisedAtClose(s: State, i: nat)
    requires Typed(s) && i < |s.dispatches| && s.dispatches[i].Awaiting?
    ensures ClosesDied(s, Strand(s, i))
  {
  }

  lemma StepRaisedAtClose(s: State, step: Step)
    requires Inv(s) && Enabled(s, step)
    ensures ClosesDied(s, Apply(s, step))
  {
    match step
    case StartDispatch(i) => StartRaisedAtClose(s, i);
    case SendFails(i) => ErrorRaisedAtClose(s, i);
    case SendRaises(i) => StrandRaisedAtClose(s, i);
    case CloseDone(i) => CloseDoneRaisedAtClose(s, i);
    case ResumeWithReply(i) => ReplyRaisedAtClose(s, i, ReplyOf(s, i));
    case ResumeWithError(i) => ErrorRaisedAtClose(s, i);
    case Accept => ConnectionMoves(s, step);
    case Receive(_, _) => ConnectionMoves(s, step);
    case FinishAck(_) => ConnectionMoves(s, step);
    case Disconnect(_) => ConnectionMoves(s, step);
    case _ => QuietRaisedAtClose(s, step);
  }

  // ----- Over runs -----

  /** Some step of the run gave the task up while it was in flight at its last attempt. */
  ghost predicate GivenUpDuring(s: State, steps: seq<Step>, env: Env, t: string)
    requires Typed(s) && IsRun(s, steps, env)
    decreases |steps|
  {
    steps != [] && (GivesUp(s, steps[0], t) || GivenUpDuring(Apply(s, steps[0]), steps[1..], env, t))
  }

  lemma SilentStaysSilent(s: State, r: State, t: string)
    requires Over(s, t) && !Accounted(s, t) && Over(r, t) && LeavesSilent(s, r) && ClosesDied(s, r)
    ensures !Accounted(r, t)
  {
    forall i | 0 <= i < |r.dispatches| && r.dispatches[i].task == t ensures !r.dispatches[i].RaisedAtClose? {
      if i < |s.dispatches| && s.dispatches[i].task == t {
        assert !s.dispatches[i].Closing? && !s.dispatches[i].RaisedAtClose?;
      }
    }
  }

  lemma OverStays(s: State, step: Step, t: string)
    requires Inv(s) && Over(s, t) && Enabled(s, step)
    ensures Over(Apply(s, step), t)
  {
    StepMoves(s, step);
    MovesLater(s, Apply(s, step), AssignedBy(step));
  }

  lemma OverIsNotGivenUp(s: State, step: Step, t: string)
    requires Over(s, t)
    ensures !GivesUp(s, step, t)
  {
  }

  /** Once it is over, whether it is accounted for is settled, and nothing gives it up any more. */
  lemma OverIsSettled(s: State, step: Step, t: string)
    requires Inv(s) && Over(s, t) && Enabled(s, step)
    ensures Over(Apply(s, step), t) && !GivesUp(s, step, t)
    ensures Accounted(Apply(s, step), t) <==> Accounted(s, t)
  {
    OverStays(s, step, t);
    OverIsNotGivenUp(s, step, t);
    if Accounted(s, t) {
      StepAccounted(s, step, t);
    } else {
      StepLeavesSilent(s, step);
      StepRaisedAtClose(s, step);
      SilentStaysSilent(s, Apply(s, step), t);
    }
  }

  lemma {:induction false} OverIsSettledForGood(s: State, steps: seq<Step>, env: Env, t: string)
    requires Inv(s) && Over(s, t) && IsRun(s, steps, env)
    ensures Over(Exec(s, steps, env), t) && !GivenUpDuring(s, steps, env, t)
    ensures Accounted(Exec(s, steps, env), t) <==> Accounted(s, t)
    decreases |steps|
  {
    if steps != [] {
      StepInv(s, steps[0]);
      OverIsSettled(s, steps[0], t);
      OverIsSettledForGood(Apply(s, steps[0]), steps[1..], env, t);
    }
  }

  /** Over any run, whatever its environment: a task that was not over, or not yet submitted, has
      ended with no response and no close under way or lost, exactly when some step of the run gave
      it up at its last attempt. */
  lemma {:induction false} SilentEndings(s: State, steps: seq<Step>, env: Env, t: string)
    requires Inv(s) && !Over(s, t) && IsRun(s, steps, env)
    ensures Over(Exec(s, steps, env), t) && !Accounted(Exec(s, steps, env), t) <==> GivenUpDuring(s, steps, env, t)
    decreases |steps|
  {
    if steps != [] {
      var q := Apply(s, steps[0]);
      StepInv(s, steps[0]);
      EndsInSilence(s, steps[0], t);
      if Over(q, t) { OverIsSettledForGood(q, steps[1..], env, t); } else { SilentEndings(q, steps[1..], env, t); }
    }
  }

  /** So in every reachable state a COMPLETED or FAILED task has a recorded response, or a dispatch
      suspended in or lost in the draining close, exactly unless it was given up in that run. */
  lemma TerminalIsAccountedFor(steps: seq<Step>, env: Env, t: string)
    requires IsRun(Init, steps, env) && Over(Exec(Init, steps, env), t)
    ensures Accounted(Exec(Init, steps, env), t) <==> !GivenUpDuring(Init, steps, env, t)
  {
    InitHolds();
    SilentEndings(Init, steps, env, t);
  }

  // ----- With one owner only the monitor gives up -----

  /** Some heartbeat timeout of the run gave the task up. */
  ghost predicate MonitorGaveUp(s: State, steps: seq<Step>, env: Env, t: string)
    requires Typed(s) && IsRun(s, steps, env)
    decreases |steps|
  {
    steps != [] && (MonitorGivesUp(s, steps[0], t) || MonitorGaveUp(Apply(s, steps[0]), steps[1..], env, t))
  }

  /** Tasks in flight have distinct workers all along the run, as in every calm one. */
  ghost predicate KeepsOneOwner(s: State, steps: seq<Step>, env: Env)
    requires Typed(s) && IsRun(s, steps, env)
    decreases |steps|
  {
    OneOwner(s) && (steps == [] || KeepsOneOwner(Apply(s, steps[0]), steps[1..], env))
  }

  lemma {:induction false} CalmKeepsOneOwner(s: State, steps: seq<Step>, env: Env)
    requires Inv(s) && OwnInv(s) && IsRun(s, steps, env) && env.calm
    ensures KeepsOneOwner(s, steps, env)
    decreases |steps|
  {
    if steps != [] {
      StepInv(s, steps[0]);
      StepOwn(s, steps[0]);
      CalmKeepsOneOwner(Apply(s, steps[0]), steps[1..], env);
    }
  }

  lemma OneOwnerGivesUpNoOther(s: State, step: Step, t: string)
    requires Inv(s) && OneOwner(s) && Enabled(s, step)
    ensures !GivenUpByAnother(s, step, t)
  {
    var lost := LosesWorker(s, step);
    if lost.Some? {
      var u, w := lost.value.0, lost.value.1;
      if !step.StartDispatch? { CurrentIsRunning(s, step.index); }
      assert s.tasks[u].OwnedBy(w);
      assert t in s.tasks && OwnedByAny(s.tasks[t], {w}) ==> s.tasks[t].OwnedBy(w);
    }
  }

  lemma {:induction false} OneOwnerLeavesTheMonitor(s: State, steps: seq<Step>, env: Env, t: string)
    requires Inv(s) && IsRun(s, steps, env) && KeepsOneOwner(s, steps, env)
    ensures GivenUpDuring(s, steps, env, t) <==> MonitorGaveUp(s, steps, env, t)
    decreases |steps|
  {
    if steps != [] {
      StepInv(s, steps[0]);
      OneOwnerGivesUpNoOther(s, steps[0], t);
      OneOwnerLeavesTheMonitor(Apply(s, steps[0]), steps[1..], env, t);
    }
  }

  // ----- Waiters -----

  /** A waiter whose tasks are all recorded can resume, unless a timeout cancelled a future it shares. */
  lemma NoLostWakeup(s: State, k: nat)
    requires Inv(s) && k < |s.waiters| && s.waiters[k].Waiting?
    requires forall t :: t in s.waiters[k].ids || t in s.waiters[k].held ==> t in s.responses
    requires !SomeCancelled(s, s.waiters[k])
    ensures Enabled(s, WaiterResumes(k)) && AllResolved(s, s.waiters[k])
  {
    var w := s.waiters[k];
    assert WaiterOk(s, w);
    forall t | t in w.held ensures w.held[t] < |s.slots| && s.slots[w.held[t]].state.Resolved? {
      assert SlotOk(s, w.held[t], s.slots[w.held[t]]);
    }
  }

  ghost predicate NoneCancelledIn(slots: seq<Slot>) {
    forall f :: 0 <= f < |slots| ==> !slots[f].state.Cancelled?
  }

  ghost predicate NoneCancelled(s: State) { NoneCancelledIn(s.slots) }

  lemma {:induction false} OpenSlotsUncancelled(slots: seq<Slot>, slotOf: map<string, nat>, ids: seq<string>)
    requires forall t :: t in slotOf ==> slotOf[t] < |slots|
    requires NoneCancelledIn(slots)
    ensures NoneCancelledIn(OpenSlots(slots, slotOf, ids).0)
    decreases |ids|
  {
    if ids != [] {
      var t := ids[0];
      if t in slotOf && slots[slotOf[t]].state.Open? {
        OpenSlotsUncancelled(slots, slotOf, ids[1..]);
      } else {
        OpenSlotsUncancelled(slots + [Slot(t, Open)], slotOf[t := |slots|], ids[1..]);
      }
    }
  }

  lemma RecordUncancelled(s: State, t: string, response: Response)
    requires Typed(s) && t in s.tasks && NoneCancelled(s)
    ensures NoneCancelled(RecordIfTerminal(s, t, response))
  {
  }

  /** A dispatch at most resolves a future. */
  lemma ErrorUncancelled(s: State, i: nat)
    requires Typed(s) && NoneCancelled(s) && i < |s.dispatches| && s.dispatches[i].Awaiting?
    ensures NoneCancelled(DoResumeError(s, i))
  {
  }

  lemma ReplyUncancelled(s: State, i: nat, m: Message)
    requires Typed(s) && NoneCancelled(s) && i < |s.dispatches| && s.dispatches[i].Awaiting?
    ensures NoneCancelled(DoResumeReply(s, i, m))
  {
  }

  lemma DispatchUncancelled(s: State, step: Step)
    requires Typed(s) && Enabled(s, step) && NoneCancelled(s)
    requires step.StartDispatch? || step.SendFails? || step.ResumeWithReply? || step.ResumeWithError? || step.CloseDone?
    ensures NoneCancelled(Apply(s, step))
  {
    match step
    case SendFails(i) => ErrorUncancelled(s, i);
    case ResumeWithError(i) => ErrorUncancelled(s, i);
    case ResumeWithReply(i) => ReplyUncancelled(s, i, ReplyOf(s, i));
    case CloseDone(i) => RecordUncancelled(s, s.dispatches[i].task, s.dispatches[i].response);
    case _ =>
  }

  /** Only a timeout cancels. */
  lemma StepUncancelled(s: State, step: Step)
    requires Typed(s) && Enabled(s, step) && NoneCancelled(s) && !step.WaiterTimesOut?
    ensures NoneCancelled(Apply(s, step))
  {
    match step
    case StartDispatch(_) => DispatchUncancelled(s, step);
    case SendFails(_) => DispatchUncancelled(s, step);
    case ResumeWithReply(_) => DispatchUncancelled(s, step);
    case ResumeWithError(_) => DispatchUncancelled(s, step);
    case CloseDone(_) => DispatchUncancelled(s, step);
    case WaitForTasks(ids) => OpenSlotsUncancelled(s.slots, s.slotOf, Unrecorded(s, ids));
    case _ =>
  }

  ghost predicate NoTimeout(steps: seq<Step>) {
    forall n :: 0 <= n < |steps| ==> !steps[n].WaiterTimesOut?
  }

  lemma {:induction false} RunUncancelled(s: State, steps: seq<Step>, env: Env)
    requires Inv(s) && NoneCancelled(s) && IsRun(s, steps, env) && NoTimeout(steps)
    ensures NoneCancelled(Exec(s, steps, env))
    decreases |steps|
  {
    if steps != [] {
      StepInv(s, steps[0]);
      StepUncancelled(s, steps[0]);
      RunUncancelled(Apply(s, steps[0]), steps[1..], env);
    }
  }

  /** The future is done, or it is the registered one of a task with no response yet. */
  predicate AwaitsRegistered(s: State, t: string, f: nat) {
    f < |s.slots| && (s.slots[f].state.Open? ==> t in s.slotOf && s.slotOf[t] == f && t !in s.responses)
  }

  /** However many calls wait at once, one that returned got exactly the registry's entries, in
      the order asked; one that waits awaits the registered futures of unrecorded tasks, and
      without timeouts it can return as soon as its tasks are recorded. */
  lemma WaitersGetTheirOwnResults(steps: seq<Step>, env: Env, k: nat)
    requires IsRun(Init, steps, env) && k < |Exec(Init, steps, env).waiters|
    ensures var s := Exec(Init, steps, env);
            match s.waiters[k]
            case Finished(ids, results) =>
              |results| == |ids| && forall n :: 0 <= n < |ids| ==> ids[n] in s.responses && s.responses[ids[n]] == results[n]
            case Waiting(ids, got, held) =>
              && (forall t :: t in held ==> AwaitsRegistered(s, t, held[t]))
              && (NoTimeout(steps) && (forall t :: t in ids || t in held ==> t in s.responses) ==> Enabled(s, WaiterResumes(k)))
            case _ => true
  {
    var s := Exec(Init, steps, env);
    EverythingHolds(steps, env);
    assert WaiterOk(s, s.waiters[k]);
    if s.waiters[k].Waiting? {
      var held := s.waiters[k].held;
      forall t | t in held ensures AwaitsRegistered(s, t, held[t]) {
        assert SlotOk(s, held[t], s.slots[held[t]]);
      }
      if NoTimeout(steps) && forall t :: t in s.waiters[k].ids || t in held ==> t in s.responses {
        InitHolds();
        RunUncancelled(Init, steps, env);
        NoLostWakeup(s, k);
      }
    }
  }

  // ----- Retries -----

  function AttemptOf(s: State, t: string): nat { if t in s.tasks then s.tasks[t].attempt else 0 }

  /** How many times a run assigns `t`. */
  function Assignments(steps: seq<Step>, t: string): nat {
    if steps == [] then 0 else (if AssignedBy(steps[0]) == Some(t) then 1 else 0) + Assignments(steps[1..], t)
  }

  lemma StepAttempts(s: State, step: Step, t: string)
    requires Inv(s) && Enabled(s, step)
    ensures AttemptOf(Apply(s, step), t) == AttemptOf(s, t) + if AssignedBy(step) == Some(t) then 1 else 0
  {
    StepMoves(s, step);
    if AssignedBy(step) == Some(t) { AssignedIsKnown(s, step, t); }
    MovesAttempts(s, Apply(s, step), AssignedBy(step), t);
  }

  lemma AssignedIsKnown(s: State, step: Step, t: string)
    requires Enabled(s, step) && AssignedBy(step) == Some(t)
    ensures t in s.tasks
  {
  }

  lemma MovesAttempts(s: State, r: State, chosen: Option<string>, t: string)
    requires Moves(s, r, chosen) && (chosen == Some(t) ==> t in s.tasks)
    ensures AttemptOf(r, t) == AttemptOf(s, t) + if chosen == Some(t) then 1 else 0
  {
    if t in s.tasks && chosen != Some(t) { assert TaskAdvances(s.tasks[t], r.tasks[t]); }
  }

  /** A task's attempt number is exactly the number of times it was assigned. */
  lemma {:induction false} AttemptsCountAssignments(s: State, steps: seq<Step>, env: Env, t: string)
    requires Inv(s) && IsRun(s, steps, env)
    ensures AttemptOf(Exec(s, steps, env), t) == AttemptOf(s, t) + Assignments(steps, t)
    decreases |steps|
  {
    if steps != [] {
      StepInv(s, steps[0]);
      StepAttempts(s, steps[0], t);
      AttemptsCountAssignments(Apply(s, steps[0]), steps[1..], env, t);
    }
  }

  /** No run assigns a task more than three times, and a PENDING task has an attempt left. */
  lemma RetriesAreBounded(steps: seq<Step>, env: Env, t: string)
    requires IsRun(Init, steps, env)
    ensures Assignments(steps, t) <= 3
    ensures var s := Exec(Init, steps, env);
            t in s.tasks && s.tasks[t].status.Pending? ==> Assignments(steps, t) < 3
  {
    var s := Exec(Init, steps, env);
    EverythingHolds(steps, env);
    AttemptsCountAssignments(Init, steps, env, t);
    if t in s.tasks { assert TaskOk(s.workers, s.tasks[t]); }
  }
}
