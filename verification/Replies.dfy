/** What the registry says about a task is what happened to it; with honest workers it is
    also what the task's payload yields. */
module Replies {
  import opened Entities
  import opened RequestIds
  import opened Protocol
  import opened Invariant
  import opened DispatchSteps
  import opened Runs
  import opened Evolution
  import opened Traces

  predicate IsSuccess(r: Response) { r.WorkerReply? && Succeeded(r.message) }

  /** The reply is the answer of this very attempt, computed from the task's payload. */
  ghost predicate Answers(task: Task, t: string, a: nat, m: Message, exec: Executor) {
    m.body == TaskResult(t, a, exec(task.taskType, task.payload))
  }

  /** The response is of this very attempt: the master's own error for it, or a reply to its request. */
  predicate IsOf(r: Response, t: string, a: nat) {
    r == Unreachable(t, a) || (r.WorkerReply? && r.message.requestId == AttemptRequestId(t, a))
  }

  ghost predicate Faithful(task: Task, t: string, a: nat, r: Response, honest: Option<Executor>) {
    IsOf(r, t, a) && (honest.Some? && r.WorkerReply? ==> Answers(task, t, a, r.message, honest.value))
  }

  /** The response that decided the task agrees with its status. */
  predicate Decides(task: Task, r: Response) { task.status.Completed? <==> IsSuccess(r) }

  ghost predicate FutureOk(s: State, d: Dispatch, honest: Option<Executor>)
    requires d.Awaiting? && d.link < |s.links| && d.task in s.tasks
  {
    var pending := s.links[d.link].pending;
    var id := AttemptRequestId(d.task, d.attempt);
    id in pending && pending[id].GotReply? ==>
      && pending[id].message.requestId == id
      && (honest.Some? ==> Answers(s.tasks[d.task], d.task, d.attempt, pending[id].message, honest.value))
  }

  ghost predicate DispatchOk(s: State, d: Dispatch, honest: Option<Executor>) {
    d.task in s.tasks && (d.Awaiting? ==> d.link < |s.links|) ==>
      match d
      case Awaiting(_, _, _, _, _) => FutureOk(s, d, honest)
      case Closing(t, _, a, r) => Decides(s.tasks[t], r) && Faithful(s.tasks[t], t, a, r, honest)
      case Returned(t, a, r) => Faithful(s.tasks[t], t, a, r, honest)
      case _ => true
  }

  ghost predicate RecordOk(s: State, t: string, honest: Option<Executor>) {
    t in s.tasks && t in s.responses ==>
      Decides(s.tasks[t], s.responses[t]) && Faithful(s.tasks[t], t, s.tasks[t].attempt, s.responses[t], honest)
  }

  ghost predicate ReplyInv(s: State, honest: Option<Executor>) {
    && (forall i :: 0 <= i < |s.dispatches| ==> DispatchOk(s, s.dispatches[i], honest))
    && (forall t :: t in s.responses ==> RecordOk(s, t, honest))
  }

  // ----- Frames -----

  /** A task's job never changes, and its end is final. */
  ghost predicate Settles(s: State, r: State) {
    forall t :: t in s.tasks ==> t in r.tasks && TaskLater(s.tasks[t], r.tasks[t])
  }

  lemma MovesSettle(s: State, r: State)
    requires Moves(s, r, None)
    ensures Settles(s, r)
  {
    MovesLater(s, r, None);
  }

  lemma DispatchStaysOk(s: State, r: State, d: Dispatch, honest: Option<Executor>)
    requires Typed(s) && CaptureInv(s) && Settles(s, r) && DispatchOk(s, d, honest) && d in s.dispatches
    requires d.Awaiting? ==> d.link < |r.links| && SameOrNoReply(s, r, d)
    ensures DispatchOk(r, d, honest)
  {
    var i :| 0 <= i < |s.dispatches| && s.dispatches[i] == d;
    if d.Started() { assert CaptureOk(s.tasks[d.task], d); }
  }

  /** The send's future is as it was, or no longer holds a reply. */
  predicate SameOrNoReply(s: State, r: State, d: Dispatch)
    requires d.Awaiting? && d.link < |s.links| && d.link < |r.links|
  {
    var id := AttemptRequestId(d.task, d.attempt);
    var before, after := s.links[d.link].pending, r.links[d.link].pending;
    id in after && after[id].GotReply? ==> id in before && before[id] == after[id]
  }

  ghost predicate RepliesKept(s: State, r: State)
    requires Typed(s)
  {
    && |s.links| <= |r.links|
    && (forall i :: 0 <= i < |s.dispatches| && s.dispatches[i].Awaiting? ==> SameOrNoReply(s, r, s.dispatches[i]))
  }

  lemma RecordsStayOk(s: State, r: State, honest: Option<Executor>)
    requires RecordInv(s) && ReplyInv(s, honest) && Settles(s, r) && r.responses == s.responses
    ensures forall t :: t in r.responses ==> RecordOk(r, t, honest)
  {
    forall t | t in r.responses ensures RecordOk(r, t, honest) { assert RecordOk(s, t, honest); }
  }

  /** Steps that start, finish or record nothing. */
  lemma FrameReplies(s: State, r: State, honest: Option<Executor>)
    requires Typed(s) && CaptureInv(s) && RecordInv(s) && ReplyInv(s, honest) && Settles(s, r)
    requires r.responses == s.responses && RepliesKept(s, r)
    requires forall i :: 0 <= i < |r.dispatches| ==>
               (i < |s.dispatches| && r.dispatches[i] == s.dispatches[i]) || r.dispatches[i].Spawned?
               || r.dispatches[i].RaisedAtStart? || r.dispatches[i].RaisedAtClose?
               || (i < |s.dispatches| && s.dispatches[i].Awaiting? && r.dispatches[i] == s.dispatches[i].(sent := true))
    ensures ReplyInv(r, honest)
  {
    RecordsStayOk(s, r, honest);
    forall i | 0 <= i < |r.dispatches| ensures DispatchOk(r, r.dispatches[i], honest) {
      if i < |s.dispatches| {
        assert DispatchOk(s, s.dispatches[i], honest);
        DispatchStaysOk(s, r, s.dispatches[i], honest);
      }
    }
  }

  /** A step that replaces one dispatch and keeps the registry. */
  lemma ReplaceReplies(s: State, r: State, i: nat, e: Dispatch, honest: Option<Executor>)
    requires Typed(s) && CaptureInv(s) && RecordInv(s) && ReplyInv(s, honest) && Settles(s, r)
    requires Replaces(s, r, i, e) && DispatchOk(r, e, honest)
    requires r.responses == s.responses && RepliesKept(s, r)
    ensures ReplyInv(r, honest)
  {
    RecordsStayOk(s, r, honest);
    forall j | 0 <= j < |r.dispatches| ensures DispatchOk(r, r.dispatches[j], honest) {
      if j != i {
        assert DispatchOk(s, s.dispatches[j], honest);
        DispatchStaysOk(s, r, s.dispatches[j], honest);
      }
    }
  }

  lemma RecordReplies(s: State, t: string, response: Response, honest: Option<Executor>)
    requires Typed(s) && ReplyInv(s, honest) && t in s.tasks
    requires Decides(s.tasks[t], response) && Faithful(s.tasks[t], t, s.tasks[t].attempt, response, honest)
    ensures ReplyInv(Record(s, t, response), honest)
  {
    var r := Record(s, t, response);
    forall i | 0 <= i < |r.dispatches| ensures DispatchOk(r, r.dispatches[i], honest) {
      assert DispatchOk(s, s.dispatches[i], honest);
    }
    forall u | u in r.responses ensures RecordOk(r, u, honest) { assert u != t ==> RecordOk(s, u, honest); }
  }

  lemma PopKeepsReplies(s: State, r: State, i: nat)
    requires Typed(s) && i < |s.dispatches| && s.dispatches[i].Awaiting? && r.links == PopPending(s, i).links
    ensures RepliesKept(s, r)
  {
  }

  // ----- Steps -----

  lemma RetireReplies(s: State, i: nat, response: Response, honest: Option<Executor>)
    requires Typed(s) && CaptureInv(s) && RecordInv(s) && ReplyInv(s, honest)
    requires i < |s.dispatches| && s.dispatches[i].Awaiting?
    requires Faithful(s.tasks[s.dispatches[i].task], s.dispatches[i].task, s.dispatches[i].attempt, response, honest)
    ensures ReplyInv(Retire(s, i, response), honest)
  {
    var r := Retire(s, i, response);
    PopKeepsReplies(s, r, i);
    ReplaceReplies(s, r, i, r.dispatches[i], honest);
  }

  lemma StrandReplies(s: State, i: nat, honest: Option<Executor>)
    requires Typed(s) && CaptureInv(s) && RecordInv(s) && ReplyInv(s, honest)
    requires i < |s.dispatches| && s.dispatches[i].Awaiting?
    ensures ReplyInv(Strand(s, i), honest)
  {
    var r := Strand(s, i);
    PopKeepsReplies(s, r, i);
    ReplaceReplies(s, r, i, r.dispatches[i], honest);
  }

  lemma FinishReplies(s: State, i: nat, m: Message, honest: Option<Executor>)
    requires Typed(s) && CaptureInv(s) && RecordInv(s) && ReplyInv(s, honest)
    requires i < |s.dispatches| && s.dispatches[i].Awaiting? && Current(s, s.dispatches[i])
    requires Faithful(s.tasks[s.dispatches[i].task], s.dispatches[i].task, s.dispatches[i].attempt, WorkerReply(m), honest)
    ensures ReplyInv(Finish(s, i, Succeeded(m), WorkerReply(m)), honest)
  {
    var r := Finish(s, i, Succeeded(m), WorkerReply(m));
    CurrentIsRunning(s, i);
    FinishMoves(s, i, Succeeded(m), WorkerReply(m));
    MovesSettle(s, r);
    PopKeepsReplies(s, r, i);
    ReplaceReplies(s, r, i, r.dispatches[i], honest);
  }

  lemma CloseDoneReplies(s: State, i: nat, honest: Option<Executor>)
    requires Typed(s) && CaptureInv(s) && RecordInv(s) && ReplyInv(s, honest)
    requires i < |s.dispatches| && s.dispatches[i].Closing?
    ensures ReplyInv(DoCloseDone(s, i), honest)
  {
    var d := s.dispatches[i];
    var e := Returned(d.task, d.attempt, d.response);
    assert DispatchOk(s, d, honest);
    assert CaptureOk(s.tasks[d.task], d);
    var q := s.(dispatches := s.dispatches[i := e]);
    ReplaceReplies(s, q, i, e, honest);
    RecordReplies(q, d.task, d.response, honest);
    assert DoCloseDone(s, i) == Record(q, d.task, d.response);
  }

  /** The reply a send resumes with is faithful. */
  lemma ReplyIsFaithful(s: State, i: nat, honest: Option<Executor>)
    requires Typed(s) && ReplyInv(s, honest) && HasReply(s, i)
    ensures var d := s.dispatches[i];
            Faithful(s.tasks[d.task], d.task, d.attempt, WorkerReply(ReplyOf(s, i)), honest)
  {
    assert DispatchOk(s, s.dispatches[i], honest);
  }

  lemma ResumeReplyReplies(s: State, i: nat, honest: Option<Executor>)
    requires Inv(s) && ReplyInv(s, honest) && HasReply(s, i)
    ensures ReplyInv(DoResumeReply(s, i, ReplyOf(s, i)), honest)
  {
    var m := ReplyOf(s, i);
    ReplyIsFaithful(s, i, honest);
    ReplyIsFinishThenClose(s, i, m);
    if Current(s, s.dispatches[i]) && m.body.StatuslessResult? {
      StrandReplies(s, i, honest);
    } else if Current(s, s.dispatches[i]) {
      FinishReplies(s, i, m, honest);
      FinishInv(s, i, Succeeded(m), WorkerReply(m));
      CloseDoneReplies(Finish(s, i, Succeeded(m), WorkerReply(m)), i, honest);
    } else {
      RetireReplies(s, i, WorkerReply(m), honest);
    }
  }

  lemma RequeueReplies(s: State, ws: set<string>, honest: Option<Executor>)
    requires Typed(s) && CaptureInv(s) && RecordInv(s) && ReplyInv(s, honest)
    ensures ReplyInv(RequeueState(s, ws), honest)
  {
    RequeueMoves(s, ws);
    MovesSettle(s, RequeueState(s, ws));
    FrameReplies(s, RequeueState(s, ws), honest);
  }

  /** A given-up task is recorded as unreachable at its last attempt. */
  lemma RecordUnreachable(s: State, t: string, a: nat, honest: Option<Executor>)
    requires Typed(s) && ReplyInv(s, honest) && t in s.tasks && a == s.tasks[t].attempt && !s.tasks[t].status.Completed?
    ensures ReplyInv(RecordIfTerminal(s, t, Unreachable(t, a)), honest)
  {
    if s.tasks[t].Terminal() { RecordReplies(s, t, Unreachable(t, a), honest); }
  }

  lemma ResumeErrorReplies(s: State, i: nat, honest: Option<Executor>)
    requires Inv(s) && ReplyInv(s, honest) && i < |s.dispatches| && s.dispatches[i].Awaiting?
    ensures ReplyInv(DoResumeError(s, i), honest)
  {
    var d := s.dispatches[i];
    var response := Unreachable(d.task, d.attempt);
    ResumeErrorIsLostThenRetired(s, i);
    if Current(s, d) { LostReplies(s, i, honest); } else { RetireReplies(s, i, response, honest); }
  }

  lemma LostReplies(s: State, i: nat, honest: Option<Executor>)
    requires Inv(s) && ReplyInv(s, honest) && i < |s.dispatches| && s.dispatches[i].Awaiting? && Current(s, s.dispatches[i])
    ensures var d := s.dispatches[i];
            var response := Unreachable(d.task, d.attempt);
            ReplyInv(RecordIfTerminal(Retire(RequeueState(s, {d.worker}), i, response), d.task, response), honest)
  {
    var d := s.dispatches[i];
    var response := Unreachable(d.task, d.attempt);
    CurrentIsRunning(s, i);
    RequeueInv(s, {d.worker});
    RequeueReplies(s, {d.worker}, honest);
    RetireReplies(RequeueState(s, {d.worker}), i, response, honest);
    RecordUnreachable(Retire(RequeueState(s, {d.worker}), i, response), d.task, d.attempt, honest);
  }

  lemma SendReplies(s: State, i: nat, honest: Option<Executor>)
    requires Typed(s) && CaptureInv(s) && RecordInv(s) && ReplyInv(s, honest)
    requires StartsAssigned(s, i) && s.tasks[s.dispatches[i].task].worker.value in s.connections
    ensures ReplyInv(Send(s, i), honest)
  {
    var r := Send(s, i);
    ReplaceReplies(s, r, i, r.dispatches[i], honest);
  }

  lemma BounceReplies(s: State, i: nat, honest: Option<Executor>)
    requires Inv(s) && ReplyInv(s, honest) && StartsAssigned(s, i)
    ensures ReplyInv(Bounce(s, i), honest)
  {
    var r := Bounce(s, i);
    var w := s.tasks[s.dispatches[i].task].worker.value;
    RequeueInv(s, {w});
    RequeueReplies(s, {w}, honest);
    ReplaceReplies(RequeueState(s, {w}), r, i, r.dispatches[i], honest);
  }

  lemma StartReplies(s: State, i: nat, honest: Option<Executor>)
    requires Inv(s) && ReplyInv(s, honest) && i < |s.dispatches| && s.dispatches[i].Spawned?
    ensures ReplyInv(DoStart(s, i), honest)
  {
    var t := s.dispatches[i].task;
    assert TaskOk(s.workers, s.tasks[t]);
    if s.tasks[t].status.Assigned? {
      StartIsSendOrBounce(s, i);
      if s.tasks[t].worker.value in s.connections {
        SendReplies(s, i, honest);
      } else {
        BounceReplies(s, i, honest);
        RecordUnreachable(Bounce(s, i), t, s.tasks[t].attempt, honest);
      }
    } else {
      FrameReplies(s, DoStart(s, i), honest);
    }
  }

  lemma ExitReplies(s: State, l: nat, honest: Option<Executor>)
    requires Typed(s) && CaptureInv(s) && RecordInv(s) && ReplyInv(s, honest) && l < |s.links|
    ensures ReplyInv(Exit(s, l), honest)
  {
    FrameReplies(s, Exit(s, l), honest);
  }

  /** A reply that resolves a send answers that send's own attempt: request ids name one
      attempt of one task. */
  lemma ResolveReplies(s: State, l: nat, m: Message, honest: Option<Executor>)
    requires Typed(s) && CaptureInv(s) && RecordInv(s) && ReplyInv(s, honest) && l < |s.links|
    requires honest.Some? ==> HonestMessage(s, m, honest.value)
    ensures ReplyInv(s.(links := s.links[l := s.links[l].(pending := s.links[l].pending[m.requestId := GotReply(m)])]), honest)
  {
    var r := s.(links := s.links[l := s.links[l].(pending := s.links[l].pending[m.requestId := GotReply(m)])]);
    RecordsStayOk(s, r, honest);
    forall i | 0 <= i < |r.dispatches| ensures DispatchOk(r, r.dispatches[i], honest) {
      assert DispatchOk(s, s.dispatches[i], honest);
    }
  }

  lemma HandleReplies(s: State, l: nat, body: Body, honest: Option<Executor>)
    requires Typed(s) && CaptureInv(s) && RecordInv(s) && ReplyInv(s, honest) && l < |s.links|
    ensures ReplyInv(HandleRequest(s, l, body), honest)
  {
    var r := HandleRequest(s, l, body);
    assert forall k :: 0 <= k < |s.links| ==> r.links[k].pending == s.links[k].pending;
    FrameReplies(s, r, honest);
  }

  lemma ReceiveReplies(s: State, l: nat, m: Message, honest: Option<Executor>)
    requires Inv(s) && ReplyInv(s, honest) && l < |s.links|
    requires honest.Some? ==> HonestMessage(s, m, honest.value)
    ensures ReplyInv(DoReceive(s, l, m), honest)
  {
    if Superseded(s, l) {
      ExitReplies(s, l, honest);
    } else if Handled(s, l, m) {
      HandleReplies(s, l, m.body, honest);
    } else {
      ResolveReplies(s, l, m, honest);
    }
  }

  lemma FinishAckReplies(s: State, l: nat, honest: Option<Executor>)
    requires Typed(s) && CaptureInv(s) && RecordInv(s) && ReplyInv(s, honest) && l < |s.links|
    ensures ReplyInv(DoFinishAck(s, l), honest)
  {
    var r := DoFinishAck(s, l);
    if s.links[l].phase.AckingShutdown? && s.links[l].owner.Some? && s.links[l].pending == map[] {
      ExitReplies(s, l, honest);
    } else {
      assert forall k :: 0 <= k < |s.links| ==> r.links[k].pending == s.links[k].pending;
      FrameReplies(s, r, honest);
    }
  }

  lemma FrameLinksReplies(s: State, r: State, honest: Option<Executor>)
    requires Typed(s) && CaptureInv(s) && RecordInv(s) && ReplyInv(s, honest) && Settles(s, r)
    requires r.responses == s.responses && r.dispatches == s.dispatches
    requires s.links <= r.links
    ensures ReplyInv(r, honest)
  {
    FrameReplies(s, r, honest);
  }

  lemma SameTasksReplies(s: State, r: State, honest: Option<Executor>)
    requires Typed(s) && CaptureInv(s) && RecordInv(s) && ReplyInv(s, honest)
    requires r.tasks == s.tasks && r.responses == s.responses && r.dispatches == s.dispatches && s.links <= r.links
    ensures ReplyInv(r, honest)
  {
    FrameLinksReplies(s, r, honest);
  }

  lemma SubmitReplies(s: State, t: string, ty: string, p: Payload, honest: Option<Executor>)
    requires Typed(s) && CaptureInv(s) && RecordInv(s) && ReplyInv(s, honest)
    ensures ReplyInv(DoSubmit(s, t, ty, p), honest)
  {
    FrameLinksReplies(s, DoSubmit(s, t, ty, p), honest);
  }

  lemma AssignReplies(s: State, t: string, w: string, honest: Option<Executor>)
    requires Typed(s) && CaptureInv(s) && RecordInv(s) && ReplyInv(s, honest) && Enabled(s, AssignTask(t, w))
    ensures ReplyInv(DoAssign(s, t, w), honest)
  {
    FrameReplies(s, DoAssign(s, t, w), honest);
  }

  lemma SendDoneReplies(s: State, i: nat, honest: Option<Executor>)
    requires Typed(s) && CaptureInv(s) && RecordInv(s) && ReplyInv(s, honest) && i < |s.dispatches| && s.dispatches[i].Awaiting?
    ensures ReplyInv(s.(dispatches := s.dispatches[i := s.dispatches[i].(sent := true)]), honest)
  {
    var e := s.dispatches[i].(sent := true);
    assert DispatchOk(s, s.dispatches[i], honest);
    ReplaceReplies(s, s.(dispatches := s.dispatches[i := e]), i, e, honest);
  }

  lemma CloseFailsReplies(s: State, i: nat, honest: Option<Executor>)
    requires Typed(s) && CaptureInv(s) && RecordInv(s) && ReplyInv(s, honest) && i < |s.dispatches| && s.dispatches[i].Closing?
    ensures ReplyInv(s.(dispatches := s.dispatches[i := RaisedAtClose(s.dispatches[i].task, s.dispatches[i].attempt)]), honest)
  {
    var e := RaisedAtClose(s.dispatches[i].task, s.dispatches[i].attempt);
    ReplaceReplies(s, s.(dispatches := s.dispatches[i := e]), i, e, honest);
  }

  lemma DispatchReplies(s: State, step: Step, honest: Option<Executor>)
    requires Inv(s) && ReplyInv(s, honest) && Enabled(s, step)
    requires step.StartDispatch? || step.SendDone? || step.SendFails? || step.SendRaises? || step.ResumeWithReply?
             || step.ResumeWithError? || step.CloseDone? || step.CloseFails?
    ensures ReplyInv(Apply(s, step), honest)
  {
    match step
    case StartDispatch(i) => StartReplies(s, i, honest);
    case SendDone(i) => SendDoneReplies(s, i, honest);
    case SendFails(i) => ResumeErrorReplies(s, i, honest);
    case SendRaises(i) => StrandReplies(s, i, honest);
    case ResumeWithReply(i) => ResumeReplyReplies(s, i, honest);
    case ResumeWithError(i) => ResumeErrorReplies(s, i, honest);
    case CloseDone(i) => CloseDoneReplies(s, i, honest);
    case CloseFails(i) => CloseFailsReplies(s, i, honest);
  }

  lemma StepReplies(s: State, step: Step, honest: Option<Executor>)
    requires Inv(s) && ReplyInv(s, honest) && Enabled(s, step)
    requires honest.Some? && step.Receive? ==> HonestMessage(s, step.message, honest.value)
    ensures ReplyInv(Apply(s, step), honest)
  {
    match step
    case SubmitTask(t, ty, p) => SubmitReplies(s, t, ty, p, honest);
    case AssignTask(t, w) => AssignReplies(s, t, w, honest);
    case Accept => SameTasksReplies(s, s.(links := s.links + [Link(None, Reading, map[])]), honest);
    case Receive(l, m) => ReceiveReplies(s, l, m, honest);
    case FinishAck(l) => FinishAckReplies(s, l, honest);
    case Disconnect(l) => ExitReplies(s, l, honest);
    case HeartbeatTimeout(stale) => RequeueReplies(s, stale, honest);
    case WaitForTasks(ids) => SameTasksReplies(s, DoWait(s, ids), honest);
    case WaiterResumes(k) => SameTasksReplies(s, DoWaiterResumes(s, k), honest);
    case WaiterTimesOut(k) => SameTasksReplies(s, DoWaiterTimesOut(s, k), honest);
    case _ => DispatchReplies(s, step, honest);
  }

  /** In any run the registry agrees with the task table; in any run with honest workers it
      holds, for the final attempt of each recorded task, that attempt's own answer or error. */
  lemma {:induction false} RunReplies(s: State, steps: seq<Step>, env: Env)
    requires Inv(s) && ReplyInv(s, env.honest) && IsRun(s, steps, env)
    ensures ReplyInv(Exec(s, steps, env), env.honest)
    decreases |steps|
  {
    if steps != [] {
      StepInv(s, steps[0]);
      StepReplies(s, steps[0], env.honest);
      RunReplies(Apply(s, steps[0]), steps[1..], env);
    }
  }
}
