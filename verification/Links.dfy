/** Connections: an installed link is alive and belongs to the worker it is installed for, in
    runs where no link is current for two worker ids. */
module Links {
  import opened Entities
  import opened RequestIds
  import opened Protocol
  import opened DispatchSteps
  import opened Traces

  ghost predicate Installed(s: State) {
    forall w :: w in s.connections ==>
      s.connections[w] < |s.links| && s.links[s.connections[w]].owner == Some(w) && !s.links[s.connections[w]].phase.Exited?
  }

  /** A handler that exited has failed every send suspended on its link. */
  ghost predicate NoHangingSend(s: State) {
    forall l :: 0 <= l < |s.links| && s.links[l].phase.Exited? ==> Settled(s.links[l].pending)
  }

  ghost predicate Settled(pending: map<string, Future>) {
    forall id :: id in pending ==> !pending[id].Unresolved?
  }

  ghost predicate LinkInv(s: State) { Installed(s) && NoHangingSend(s) }

  lemma FrameLinks(s: State, r: State)
    requires LinkInv(s) && r.links == s.links && r.connections == s.connections
    ensures LinkInv(r)
  {
  }

  lemma PopLinks(s: State, r: State, i: nat)
    requires Typed(s) && LinkInv(s) && i < |s.dispatches| && s.dispatches[i].Awaiting?
    requires r.links == PopPending(s, i).links && r.connections == s.connections
    ensures LinkInv(r)
  {
    assert forall l :: 0 <= l < |s.links| && Settled(s.links[l].pending) ==> Settled(r.links[l].pending);
  }

  /** Changing a link that has not exited, other than its owner. */
  lemma UpdateLink(s: State, r: State, l: nat, link: Link)
    requires LinkInv(s) && l < |s.links| && r.links == s.links[l := link] && r.connections == s.connections
    requires link.owner == s.links[l].owner && !link.phase.Exited?
    ensures LinkInv(r)
  {
  }

  lemma StartLinks(s: State, i: nat)
    requires Typed(s) && LinkInv(s) && i < |s.dispatches| && s.dispatches[i].Spawned?
    ensures LinkInv(DoStart(s, i))
  {
    var t := s.dispatches[i].task;
    if StartsAssigned(s, i) {
      StartIsSendOrBounce(s, i);
      var w := s.tasks[t].worker.value;
      if w in s.connections {
        var l := s.connections[w];
        UpdateLink(s, Send(s, i), l, Send(s, i).links[l]);
      } else {
        FrameLinks(s, Bounce(s, i));
      }
    } else {
      FrameLinks(s, DoStart(s, i));
    }
  }

  lemma ExitLinks(s: State, l: nat)
    requires Typed(s) && LinkInv(s) && l < |s.links|
    ensures LinkInv(Exit(s, l))
  {
    var r := Exit(s, l);
    assert Settled(r.links[l].pending);
    assert forall k :: 0 <= k < |s.links| && k != l ==> r.links[k] == s.links[k];
  }

  lemma HandleLinks(s: State, l: nat, body: Body)
    requires Typed(s) && LinkInv(s) && l < |s.links| && s.links[l].phase.Reading?
    ensures LinkInv(HandleRequest(s, l, body))
  {
    var r := HandleRequest(s, l, body);
    UpdateLink(s, r, l, r.links[l]);
  }

  lemma ReceiveLinks(s: State, l: nat, m: Message)
    requires Typed(s) && LinkInv(s) && l < |s.links| && s.links[l].phase.Reading?
    ensures LinkInv(DoReceive(s, l, m))
  {
    if Superseded(s, l) {
      ExitLinks(s, l);
    } else if Handled(s, l, m) {
      HandleLinks(s, l, m.body);
    } else {
      var r := DoReceive(s, l, m);
      UpdateLink(s, r, l, r.links[l]);
    }
  }

  lemma InstallLinks(s: State, l: nat, w: string)
    requires Typed(s) && LinkInv(s) && l < |s.links| && s.links[l].phase == AckingRegister(w)
    requires forall v :: v in s.connections && s.connections[v] == l ==> v == w
    ensures LinkInv(DoFinishAck(s, l))
  {
  }

  lemma FinishAckLinks(s: State, l: nat)
    requires Typed(s) && LinkInv(s) && Enabled(s, FinishAck(l)) && OneIdPerLink(s, FinishAck(l))
    ensures LinkInv(DoFinishAck(s, l))
  {
    var r := DoFinishAck(s, l);
    if s.links[l].phase.AckingRegister? {
      InstallLinks(s, l, s.links[l].phase.worker);
    } else if s.links[l].owner.Some? && s.links[l].pending == map[] {
      ExitLinks(s, l);
    } else {
      UpdateLink(s, r, l, r.links[l]);
    }
  }

  lemma ReplyLinks(s: State, i: nat, m: Message)
    requires Typed(s) && LinkInv(s) && i < |s.dispatches| && s.dispatches[i].Awaiting?
    ensures LinkInv(DoResumeReply(s, i, m))
  {
    PopLinks(s, PopPending(s, i), i);
    FrameLinks(PopPending(s, i), DoResumeReply(s, i, m));
  }

  lemma ErrorLinks(s: State, i: nat)
    requires Typed(s) && LinkInv(s) && i < |s.dispatches| && s.dispatches[i].Awaiting?
    ensures LinkInv(DoResumeError(s, i))
  {
    PopLinks(s, PopPending(s, i), i);
    FrameLinks(PopPending(s, i), DoResumeError(s, i));
  }

  lemma AcceptLinks(s: State)
    requires LinkInv(s)
    ensures LinkInv(s.(links := s.links + [Link(None, Reading, map[])]))
  {
  }

  predicate LeavesLinks(step: Step) {
    || step.SubmitTask? || step.AssignTask? || step.SendDone? || step.CloseDone? || step.CloseFails?
    || step.HeartbeatTimeout? || step.WaitForTasks? || step.WaiterResumes? || step.WaiterTimesOut?
  }

  lemma QuietLinks(s: State, step: Step)
    requires Typed(s) && Enabled(s, step) && LeavesLinks(step)
    ensures Apply(s, step).links == s.links && Apply(s, step).connections == s.connections
  {
  }

  lemma StepLinks(s: State, step: Step)
    requires Typed(s) && LinkInv(s) && Enabled(s, step) && OneIdPerLink(s, step)
    ensures LinkInv(Apply(s, step))
  {
    match step
    case StartDispatch(i) => StartLinks(s, i);
    case SendFails(i) => ErrorLinks(s, i);
    case SendRaises(i) => PopLinks(s, Strand(s, i), i);
    case ResumeWithReply(i) => ReplyLinks(s, i, ReplyOf(s, i));
    case ResumeWithError(i) => ErrorLinks(s, i);
    case Accept => AcceptLinks(s);
    case Receive(l, m) => ReceiveLinks(s, l, m);
    case FinishAck(l) => FinishAckLinks(s, l);
    case Disconnect(l) => ExitLinks(s, l);
    case _ =>
      QuietLinks(s, step);
      FrameLinks(s, Apply(s, step));
  }

  /** A step keeps every installed link alive and its own exactly when no link becomes
      current for two ids. */
  lemma OneIdIsExact(s: State, step: Step)
    requires Typed(s) && LinkInv(s) && Enabled(s, step)
    ensures LinkInv(Apply(s, step)) <==> OneIdPerLink(s, step)
  {
    if OneIdPerLink(s, step) {
      StepLinks(s, step);
    } else {
      var r := DoFinishAck(s, step.link);
      var v :| v in s.connections && s.connections[v] == step.link && v != s.links[step.link].phase.worker;
      assert r.connections[v] == step.link && r.links[step.link].owner != Some(v);
    }
  }

  // ----- Hanging sends -----

  /** A dispatch starts a send on a link whose handler has exited. */
  predicate SendsOnDeadLink(s: State, step: Step) {
    && step.StartDispatch? && step.index < |s.dispatches| && s.dispatches[step.index].task in s.tasks
    && var task := s.tasks[s.dispatches[step.index].task];
       && task.status.Assigned? && task.worker.Some? && task.worker.value in s.connections
       && s.connections[task.worker.value] < |s.links| && s.links[s.connections[task.worker.value]].phase.Exited?
  }

  /** No link of a live handler becomes dead with a send unsettled, and no dead one gains one. */
  ghost predicate NoneHangs(s: State, r: State) {
    && |s.links| <= |r.links|
    && forall l :: 0 <= l < |r.links| && r.links[l].phase.Exited? ==>
         Settled(r.links[l].pending) || (l < |s.links| && s.links[l].phase.Exited? && r.links[l].pending == s.links[l].pending)
  }

  lemma NoneHangsKeeps(s: State, r: State)
    requires NoHangingSend(s) && NoneHangs(s, r)
    ensures NoHangingSend(r)
  {
  }

  lemma SendHangs(s: State, i: nat)
    requires Typed(s) && NoHangingSend(s) && i < |s.dispatches| && s.dispatches[i].Spawned?
    ensures NoHangingSend(DoStart(s, i)) <==> !SendsOnDeadLink(s, StartDispatch(i))
  {
    var r := DoStart(s, i);
    if SendsOnDeadLink(s, StartDispatch(i)) {
      StartIsSendOrBounce(s, i);
      var task := s.tasks[s.dispatches[i].task];
      var l := s.connections[task.worker.value];
      assert r.links[l].pending[AttemptRequestId(s.dispatches[i].task, task.attempt)].Unresolved?;
    }
  }

  lemma PopHangs(s: State, r: State, i: nat)
    requires Typed(s) && NoHangingSend(s) && i < |s.dispatches| && s.dispatches[i].Awaiting?
    requires r.links == PopPending(s, i).links
    ensures NoHangingSend(r)
  {
    assert forall l :: 0 <= l < |s.links| && Settled(s.links[l].pending) ==> Settled(r.links[l].pending);
  }

  lemma ExitHangs(s: State, l: nat)
    requires Typed(s) && l < |s.links|
    ensures NoneHangs(s, Exit(s, l))
  {
    assert Settled(FailPending(s.links[l].pending));
  }

  lemma ReceiveHangs(s: State, l: nat, m: Message)
    requires Typed(s) && l < |s.links| && s.links[l].phase.Reading?
    ensures NoneHangs(s, DoReceive(s, l, m))
  {
    if Superseded(s, l) { ExitHangs(s, l); }
  }

  lemma FinishAckHangs(s: State, l: nat)
    requires Typed(s) && Enabled(s, FinishAck(l))
    ensures NoneHangs(s, DoFinishAck(s, l))
  {
    if s.links[l].phase.AckingShutdown? { ExitHangs(s, l); }
  }

  lemma ConnectionHangs(s: State, step: Step)
    requires Typed(s) && NoHangingSend(s) && Enabled(s, step)
    requires step.Accept? || step.Receive? || step.FinishAck? || step.Disconnect?
    ensures NoHangingSend(Apply(s, step))
  {
    match step {
      case Accept =>
      case Receive(l, m) => ReceiveHangs(s, l, m);
      case FinishAck(l) => FinishAckHangs(s, l);
      case Disconnect(l) => ExitHangs(s, l);
    }
    NoneHangsKeeps(s, Apply(s, step));
  }

  /** A send is left with nobody to settle it exactly when a dispatch starts it on a link whose
      handler has already exited. */
  lemma HangingIsExact(s: State, step: Step)
    requires Typed(s) && NoHangingSend(s) && Enabled(s, step)
    ensures NoHangingSend(Apply(s, step)) <==> !SendsOnDeadLink(s, step)
  {
    match step
    case StartDispatch(i) => SendHangs(s, i);
    case SendFails(i) => PopHangs(s, DoResumeError(s, i), i);
    case SendRaises(i) => PopHangs(s, Strand(s, i), i);
    case ResumeWithReply(i) => PopHangs(s, DoResumeReply(s, i, ReplyOf(s, i)), i);
    case ResumeWithError(i) => PopHangs(s, DoResumeError(s, i), i);
    case Accept => ConnectionHangs(s, step);
    case Receive(_, _) => ConnectionHangs(s, step);
    case FinishAck(_) => ConnectionHangs(s, step);
    case Disconnect(_) => ConnectionHangs(s, step);
    case _ => QuietLinks(s, step);
  }

  // ----- Runs -----

  lemma {:induction false} RunLinks(s: State, steps: seq<Step>, env: Env)
    requires Typed(s) && LinkInv(s) && IsRun(s, steps, env) && env.oneIdPerLink
    ensures LinkInv(Exec(s, steps, env))
    decreases |steps|
  {
    if steps != [] {
      StepLinks(s, steps[0]);
      RunLinks(Apply(s, steps[0]), steps[1..], env);
    }
  }
}
