/** Runs of the master: every step keeps the invariant, so every reachable state has it. */
module Runs {
  import opened Entities
  import opened Protocol
  import opened Invariant
  import opened DispatchSteps

  // ----- Waiters -----

  function WithSlots(s: State, table: (seq<Slot>, map<string, nat>)): State {
    s.(slots := table.0, slotOf := table.1)
  }

  lemma {:induction false} OpenSlotsInv(s: State, ids: seq<string>)
    requires SlotInv(s) && forall t :: t in ids ==> t !in s.responses
    ensures SlotInv(WithSlots(s, OpenSlots(s.slots, s.slotOf, ids)))
    decreases |ids|
  {
    if ids != [] {
      var t := ids[0];
      if t in s.slotOf && s.slots[s.slotOf[t]].state.Open? {
        OpenSlotsInv(s, ids[1..]);
      } else {
        var q := s.(slots := s.slots + [Slot(t, Open)], slotOf := s.slotOf[t := |s.slots|]);
        forall f | 0 <= f < |q.slots| ensures SlotOk(q, f, q.slots[f]) {
          if f < |s.slots| { assert SlotOk(s, f, s.slots[f]); }
        }
        OpenSlotsInv(q, ids[1..]);
      }
    }
  }

  lemma SuspendRegistry(s: State, ids: seq<string>)
    requires Typed(s) && SlotInv(s) && WaiterInv(s)
    ensures var r := Suspend(s, ids, Unrecorded(s, ids)); SlotInv(r) && WaiterInv(r)
  {
    var missing := Unrecorded(s, ids);
    var r := Suspend(s, ids, missing);
    OpenSlotsInv(s, missing);
    var q := WithSlots(s, OpenSlots(s.slots, s.slotOf, missing));
    forall f | 0 <= f < |r.slots| ensures SlotOk(r, f, r.slots[f]) { assert SlotOk(q, f, q.slots[f]); }
    forall k | 0 <= k < |r.waiters| ensures WaiterOk(r, r.waiters[k]) {
      if k < |s.waiters| {
        assert WaiterOk(s, s.waiters[k]);
        assert forall f :: 0 <= f < |s.slots| ==> r.slots[f] == s.slots[f];
      }
    }
  }

  lemma WaitInv(s: State, ids: seq<string>)
    requires Inv(s)
    ensures Inv(DoWait(s, ids))
  {
    var r := DoWait(s, ids);
    WaiterStepTables(s, r);
    if Unrecorded(s, ids) != [] {
      SuspendRegistry(s, ids);
    } else {
      assert forall t :: t in ids ==> t !in Unrecorded(s, ids);
      forall f | 0 <= f < |r.slots| ensures SlotOk(r, f, r.slots[f]) { assert SlotOk(s, f, s.slots[f]); }
      forall k | 0 <= k < |r.waiters| ensures WaiterOk(r, r.waiters[k]) {
        if k < |s.waiters| { assert WaiterOk(s, s.waiters[k]); }
      }
    }
  }

  /** Waiters touch only the futures and themselves. */
  lemma WaiterStepTables(s: State, r: State)
    requires Inv(s)
    requires r.tasks == s.tasks && r.workers == s.workers && r.links == s.links
    requires r.dispatches == s.dispatches && r.responses == s.responses
    ensures TaskInv(r) && FailedOwnsNone(r) && CaptureInv(r) && UniqueInv(r) && LiveInv(r) && PendingInv(r) && RecordInv(r)
  {
    SameHolders(s, r);
    SameSendsPending(s, r);
  }

  lemma WaiterResumesInv(s: State, k: nat)
    requires Inv(s) && k < |s.waiters| && s.waiters[k].Waiting?
    requires AllResolved(s, s.waiters[k]) || SomeCancelled(s, s.waiters[k])
    ensures Inv(DoWaiterResumes(s, k))
  {
    var r := DoWaiterResumes(s, k);
    WaiterStepTables(s, r);
    forall f | 0 <= f < |r.slots| ensures SlotOk(r, f, r.slots[f]) { assert SlotOk(s, f, s.slots[f]); }
    forall j | 0 <= j < |r.waiters| ensures WaiterOk(r, r.waiters[j]) {
      assert WaiterOk(s, s.waiters[j]);
      if j == k && AllResolved(s, s.waiters[k]) { GatheredIsRecorded(s, k); }
    }
  }

  lemma GatheredIsRecorded(s: State, k: nat)
    requires Inv(s) && k < |s.waiters| && s.waiters[k].Waiting? && AllResolved(s, s.waiters[k])
    ensures WaiterOk(s, Finished(s.waiters[k].ids, Gathered(s, s.waiters[k])))
  {
    var w := s.waiters[k];
    assert WaiterOk(s, w);
    forall n | 0 <= n < |w.ids|
      ensures w.ids[n] in s.responses && s.responses[w.ids[n]] == Gathered(s, w)[n]
    {
      if w.ids[n] in w.held {
        var f := w.held[w.ids[n]];
        assert SlotOk(s, f, s.slots[f]);
      }
    }
  }

  lemma WaiterTimesOutInv(s: State, k: nat)
    requires Inv(s) && k < |s.waiters| && s.waiters[k].Waiting?
    ensures Inv(DoWaiterTimesOut(s, k))
  {
    var r := DoWaiterTimesOut(s, k);
    WaiterStepTables(s, r);
    forall f | 0 <= f < |r.slots| ensures SlotOk(r, f, r.slots[f]) { assert SlotOk(s, f, s.slots[f]); }
    forall j | 0 <= j < |r.waiters| ensures WaiterOk(r, r.waiters[j]) { assert WaiterOk(s, s.waiters[j]); }
  }

  // ----- Every step -----

  lemma ConnectionStepInv(s: State, step: Step)
    requires Inv(s) && Enabled(s, step)
    requires step.Accept? || step.Receive? || step.FinishAck? || step.Disconnect?
    ensures Inv(Apply(s, step))
  {
    match step
    case Accept => ConnectionOnlyInv(s, s.(links := s.links + [Link(None, Reading, map[])]));
    case Receive(l, m) =>
      ReceiveIsConnectionOnly(s, l, m);
      ConnectionOnlyInv(s, DoReceive(s, l, m));
    case FinishAck(l) =>
      FinishAckIsConnectionOnly(s, l);
      ConnectionOnlyInv(s, DoFinishAck(s, l));
    case Disconnect(l) =>
      ExitIsConnectionOnly(s, l);
      ConnectionOnlyInv(s, Exit(s, l));
  }

  lemma DispatchStepInv(s: State, step: Step)
    requires Inv(s) && Enabled(s, step)
    requires step.StartDispatch? || step.SendDone? || step.SendFails? || step.SendRaises? || step.ResumeWithReply?
             || step.ResumeWithError? || step.CloseDone? || step.CloseFails?
    ensures Inv(Apply(s, step))
  {
    match step
    case StartDispatch(i) => StartInv(s, i);
    case SendDone(i) => SendDoneInv(s, i);
    case SendFails(i) => ResumeErrorInv(s, i);
    case SendRaises(i) => StrandInv(s, i);
    case ResumeWithReply(i) => ResumeReplyInv(s, i, ReplyOf(s, i));
    case ResumeWithError(i) => ResumeErrorInv(s, i);
    case CloseDone(i) => CloseDoneInv(s, i);
    case CloseFails(i) => CloseFailsInv(s, i);
  }

  lemma StepInv(s: State, step: Step)
    requires Inv(s) && Enabled(s, step)
    ensures Inv(Apply(s, step))
  {
    match step
    case SubmitTask(t, ty, p) => SubmitInv(s, t, ty, p);
    case AssignTask(t, w) => AssignInv(s, t, w);
    case Accept => ConnectionStepInv(s, step);
    case Receive(_, _) => ConnectionStepInv(s, step);
    case FinishAck(_) => ConnectionStepInv(s, step);
    case Disconnect(_) => ConnectionStepInv(s, step);
    case HeartbeatTimeout(stale) => RequeueInv(s, stale);
    case WaitForTasks(ids) => WaitInv(s, ids);
    case WaiterResumes(k) => WaiterResumesInv(s, k);
    case WaiterTimesOut(k) => WaiterTimesOutInv(s, k);
    case _ => DispatchStepInv(s, step);
  }
}
