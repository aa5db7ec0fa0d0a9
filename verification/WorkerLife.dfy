/** The life of a worker id across steps and runs. */
module WorkerLife {
  import opened Entities
  import opened Protocol
  import opened Invariant
  import opened DispatchSteps
  import opened Runs
  import opened Traces
  import opened Stopping

  predicate Down(status: WorkerStatus) { status.Draining? || status.Stopped? || status.WorkerFailed? }

  /** What one step should do to a worker: it is assigned, released, drained, stopped, lost, or
      registered again under the next generation. */
  predicate WorkerMoves(v: Worker, v': Worker) {
    || v' == v
    || (v.status.Idle? && v' == v.(status := Busy))
    || (v.status.Busy? && v' == v.(status := Idle))
    || (!Down(v.status) && v' == v.(status := Draining))
    || (v.status.Draining? && v' == v.(status := Stopped))
    || v' == v.(status := WorkerFailed)
    || ((v.status.WorkerFailed? || v.status.Stopped?) && v'.status.Idle? && v'.generation == v.generation + 1)
  }

  /** The one other thing that can happen to it: it is released although it is STOPPED. */
  predicate Revived(v: Worker, v': Worker) { v.status.Stopped? && v' == v.(status := Idle) }

  /** Workers are never forgotten, a new one is IDLE, and none is ever just REGISTERED. */
  ghost predicate WorkersKnown(s: State, r: State) {
    && (forall w :: w in s.workers ==> w in r.workers)
    && (forall w :: w in r.workers && w !in s.workers ==> r.workers[w].status.Idle?)
  }

  ghost predicate NoneRegistered(s: State) {
    forall w :: w in s.workers ==> !s.workers[w].status.Registered?
  }

  ghost predicate WorkersMove(s: State, r: State) {
    WorkersKnown(s, r) && forall w :: w in s.workers ==> WorkerMoves(s.workers[w], r.workers[w])
  }

  ghost predicate WorkersMoveOrRevive(s: State, r: State) {
    WorkersKnown(s, r) && forall w :: w in s.workers ==>
      WorkerMoves(s.workers[w], r.workers[w]) || Revived(s.workers[w], r.workers[w])
  }

  lemma RequeueWorkers(s: State, ws: set<string>)
    ensures WorkersMove(s, RequeueState(s, ws))
  {
  }

  lemma ExitWorkers(s: State, l: nat)
    requires Typed(s) && l < |s.links|
    ensures WorkersMove(s, Exit(s, l))
  {
  }

  lemma HandleWorkers(s: State, l: nat, body: Body)
    requires Typed(s) && l < |s.links|
    ensures WorkersMove(s, HandleRequest(s, l, body))
  {
  }

  lemma ReceiveWorkers(s: State, l: nat, m: Message)
    requires Typed(s) && l < |s.links|
    ensures WorkersMove(s, DoReceive(s, l, m))
  {
    if Superseded(s, l) {
      ExitWorkers(s, l);
    } else if Handled(s, l, m) {
      HandleWorkers(s, l, m.body);
    }
  }

  lemma FinishAckWorkers(s: State, l: nat)
    requires Typed(s) && l < |s.links|
    ensures WorkersMove(s, DoFinishAck(s, l))
  {
    ExitWorkers(s, l);
  }

  lemma ErrorWorkers(s: State, i: nat)
    requires Typed(s) && i < |s.dispatches| && s.dispatches[i].Awaiting?
    ensures WorkersMove(s, DoResumeError(s, i))
  {
    RequeueWorkers(s, {s.dispatches[i].worker});
  }

  lemma StartWorkers(s: State, i: nat)
    requires Typed(s) && i < |s.dispatches| && s.dispatches[i].Spawned?
    ensures WorkersMove(s, DoStart(s, i))
  {
  }

  // ----- Releasing -----

  /** The reply decides a current attempt, so its worker is released. */
  predicate DecidesCurrent(s: State, i: nat, m: Message)
    requires i < |s.dispatches| && s.dispatches[i].Awaiting?
  {
    Current(s, s.dispatches[i]) && !m.body.StatuslessResult?
  }

  lemma ReplyWorkersTable(s: State, i: nat, m: Message)
    requires Typed(s) && CaptureInv(s) && i < |s.dispatches| && s.dispatches[i].Awaiting?
    ensures DoResumeReply(s, i, m).workers ==
            if DecidesCurrent(s, i, m) then Release(s.workers, s.dispatches[i].worker) else s.workers
  {
    ReplyIsFinishThenClose(s, i, m);
  }

  lemma ReleasedIsKnown(s: State, i: nat)
    requires Typed(s) && TaskInv(s) && FailedOwnsNone(s) && CaptureInv(s)
    requires i < |s.dispatches| && s.dispatches[i].Awaiting? && Current(s, s.dispatches[i])
    ensures s.dispatches[i].worker in s.workers && !s.workers[s.dispatches[i].worker].status.WorkerFailed?
    ensures s.tasks[s.dispatches[i].task].OwnedBy(s.dispatches[i].worker)
  {
    CurrentIsRunning(s, i);
    assert TaskOk(s.workers, s.tasks[s.dispatches[i].task]);
  }

  lemma ReleaseMoves(s: State, r: State, w: string)
    requires w in s.workers && !s.workers[w].status.WorkerFailed? && !s.workers[w].status.Registered?
    requires r.workers == Release(s.workers, w)
    ensures WorkersMoveOrRevive(s, r)
    ensures WorkersMove(s, r) <==> !s.workers[w].status.Stopped?
  {
    if s.workers[w].status.Stopped? { assert !WorkerMoves(s.workers[w], r.workers[w]); }
  }

  lemma ReplyWorkers(s: State, i: nat, m: Message)
    requires Inv(s) && NoneRegistered(s) && i < |s.dispatches| && s.dispatches[i].Awaiting?
    ensures WorkersMoveOrRevive(s, DoResumeReply(s, i, m))
    ensures WorkersMove(s, DoResumeReply(s, i, m)) <==>
              !(DecidesCurrent(s, i, m) && s.dispatches[i].worker in s.workers && s.workers[s.dispatches[i].worker].status.Stopped?)
  {
    ReplyWorkersTable(s, i, m);
    if DecidesCurrent(s, i, m) {
      ReleasedIsKnown(s, i);
      ReleaseMoves(s, DoResumeReply(s, i, m), s.dispatches[i].worker);
    }
  }

  // ----- Steps -----

  lemma QuietWorkers(s: State, step: Step)
    requires Typed(s) && Enabled(s, step)
    requires step.SubmitTask? || step.SendDone? || step.SendRaises? || step.CloseDone? || step.CloseFails? || step.Accept?
             || step.WaitForTasks? || step.WaiterResumes? || step.WaiterTimesOut?
    ensures Apply(s, step).workers == s.workers
  {
  }

  lemma OtherWorkers(s: State, step: Step)
    requires Typed(s) && Enabled(s, step) && !step.ResumeWithReply?
    ensures WorkersMove(s, Apply(s, step))
  {
    match step
    case StartDispatch(i) => StartWorkers(s, i);
    case SendFails(i) => ErrorWorkers(s, i);
    case ResumeWithError(i) => ErrorWorkers(s, i);
    case Receive(l, m) => ReceiveWorkers(s, l, m);
    case FinishAck(l) => FinishAckWorkers(s, l);
    case Disconnect(l) => ExitWorkers(s, l);
    case HeartbeatTimeout(stale) => RequeueWorkers(s, stale);
    case AssignTask(_, _) =>
    case _ => QuietWorkers(s, step);
  }

  /** A reply decides a current attempt whose worker has been STOPPED meanwhile. */
  predicate RevivesStopped(s: State, step: Step) {
    && step.ResumeWithReply? && HasReply(s, step.index) && DecidesCurrent(s, step.index, ReplyOf(s, step.index))
    && var w := s.dispatches[step.index].worker; w in s.workers && s.workers[w].status.Stopped?
  }

  /** In any state of any run, every step makes each worker one of the moves above, or revives a
      STOPPED one within its generation; and it does the latter exactly when a reply decides a
      current attempt of that STOPPED worker. So FAILED is left only by registering under the next
      generation, and DRAINING never becomes IDLE or BUSY. */
  lemma StepWorkers(s: State, step: Step)
    requires Inv(s) && NoneRegistered(s) && Enabled(s, step)
    ensures WorkersMoveOrRevive(s, Apply(s, step))
    ensures WorkersMove(s, Apply(s, step)) <==> !RevivesStopped(s, step)
  {
    if step.ResumeWithReply? { ReplyWorkers(s, step.index, ReplyOf(s, step.index)); } else { OtherWorkers(s, step); }
  }

  lemma MovesKeepNoneRegistered(s: State, r: State)
    requires NoneRegistered(s) && WorkersMoveOrRevive(s, r)
    ensures NoneRegistered(r)
  {
    forall w | w in r.workers ensures !r.workers[w].status.Registered? {
      assert w in s.workers ==> WorkerMoves(s.workers[w], r.workers[w]) || Revived(s.workers[w], r.workers[w]);
    }
  }

  // ----- Any run -----

  /** Generations never go back, and within one a FAILED worker stays FAILED. */
  predicate FailedForGood(v: Worker, v': Worker) {
    v.generation <= v'.generation && (v.generation == v'.generation && v.status.WorkerFailed? ==> v'.status.WorkerFailed?)
  }

  ghost predicate AllFailedForGood(s: State, r: State) {
    forall w :: w in s.workers ==> w in r.workers && FailedForGood(s.workers[w], r.workers[w])
  }

  lemma MovesFailForGood(s: State, r: State)
    requires WorkersMoveOrRevive(s, r)
    ensures AllFailedForGood(s, r)
  {
    forall w | w in s.workers ensures FailedForGood(s.workers[w], r.workers[w]) {
      assert WorkerMoves(s.workers[w], r.workers[w]) || Revived(s.workers[w], r.workers[w]);
    }
  }

  lemma FailedForGoodTransitive(s: State, q: State, r: State)
    requires AllFailedForGood(s, q) && AllFailedForGood(q, r)
    ensures AllFailedForGood(s, r)
  {
  }

  /** Over any run whatever a failed worker comes back only by registering, under a higher generation. */
  lemma {:induction false} RunFailedForGood(s: State, steps: seq<Step>, env: Env)
    requires Inv(s) && NoneRegistered(s) && IsRun(s, steps, env)
    ensures NoneRegistered(Exec(s, steps, env)) && AllFailedForGood(s, Exec(s, steps, env))
    decreases |steps|
  {
    if steps != [] {
      var q := Apply(s, steps[0]);
      StepInv(s, steps[0]);
      StepWorkers(s, steps[0]);
      MovesKeepNoneRegistered(s, q);
      MovesFailForGood(s, q);
      RunFailedForGood(q, steps[1..], env);
      FailedForGoodTransitive(s, q, Exec(q, steps[1..], env));
    }
  }

  // ----- Runs with safe installs -----

  /** A stopped worker has no current send, so nothing revives it. */
  lemma NothingRevives(s: State, step: Step)
    requires StoppedSendsNothing(s) && Enabled(s, step)
    ensures !RevivesStopped(s, step)
  {
    if step.ResumeWithReply? && Current(s, s.dispatches[step.index]) {
      assert !IsStopped(s, s.dispatches[step.index].worker);
    }
  }

  /** Within one generation a worker that went down stays down, and a failed one stays failed. */
  predicate WorkerLater(v: Worker, v': Worker) {
    FailedForGood(v, v') && (v.generation == v'.generation && Down(v.status) ==> Down(v'.status))
  }

  ghost predicate WorkersLater(s: State, r: State) {
    forall w :: w in s.workers ==> w in r.workers && WorkerLater(s.workers[w], r.workers[w])
  }

  lemma MovesAreLater(s: State, r: State)
    requires WorkersMove(s, r)
    ensures WorkersLater(s, r)
  {
    forall w | w in s.workers ensures WorkerLater(s.workers[w], r.workers[w]) {
      assert WorkerMoves(s.workers[w], r.workers[w]);
    }
  }

  lemma WorkersLaterTransitive(s: State, q: State, r: State)
    requires WorkersLater(s, q) && WorkersLater(q, r)
    ensures WorkersLater(s, r)
  {
  }

  lemma StepWorkersLater(s: State, step: Step)
    requires Inv(s) && NoneRegistered(s) && SendsInv(s) && Enabled(s, step)
    ensures NoneRegistered(Apply(s, step)) && WorkersLater(s, Apply(s, step))
  {
    StepWorkers(s, step);
    NothingRevives(s, step);
    MovesKeepNoneRegistered(s, Apply(s, step));
    MovesAreLater(s, Apply(s, step));
  }

  /** Where connections are installed safely, a worker id that is DRAINING, STOPPED or FAILED comes
      back only by registering, under a higher generation. */
  lemma {:induction false} RunWorkers(s: State, steps: seq<Step>, env: Env)
    requires Inv(s) && NoneRegistered(s) && SendsInv(s) && IsRun(s, steps, env) && env.safeInstalls
    ensures WorkersLater(s, Exec(s, steps, env))
    decreases |steps|
  {
    if steps != [] {
      var q := Apply(s, steps[0]);
      StepInv(s, steps[0]);
      StepSends(s, steps[0]);
      StepWorkersLater(s, steps[0]);
      RunWorkers(q, steps[1..], env);
      WorkersLaterTransitive(s, q, Exec(q, steps[1..], env));
    }
  }
}
