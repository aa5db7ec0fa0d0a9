/** Every step of a dispatch keeps the invariant. */
module DispatchSteps {
  import opened Entities
  import opened RequestIds
  import opened Protocol
  import opened Invariant

  // ----- Replacing one dispatch -----

  ghost predicate Replaces(s: State, r: State, i: nat, e: Dispatch) {
    i < |s.dispatches| && r.dispatches == s.dispatches[i := e]
  }

  lemma ReplaceLookups(s: State, r: State, i: nat, e: Dispatch)
    requires Replaces(s, r, i, e)
    ensures forall t :: HasSpawned(s, t) && s.dispatches[i] != Spawned(t) ==> HasSpawned(r, t)
    ensures forall t, w, a :: HasHolder(s, t, w, a) && !s.dispatches[i].Holds(t, w, a) ==> HasHolder(r, t, w, a)
    ensures forall t, a :: HasCasualty(s, t, a) && !s.dispatches[i].RaisedInFlight? ==> HasCasualty(r, t, a)
    ensures e.RaisedInFlight? ==> HasCasualty(r, e.task, e.attempt)
  {
    assert r.dispatches[i] == e;
    forall t, a | HasCasualty(s, t, a) && !s.dispatches[i].RaisedInFlight? ensures HasCasualty(r, t, a) {
      var j :| 0 <= j < |s.dispatches| && s.dispatches[j] == RaisedInFlight(t, a);
      assert r.dispatches[j] == s.dispatches[j];
    }
    forall t | HasSpawned(s, t) && s.dispatches[i] != Spawned(t) ensures HasSpawned(r, t) {
      var j :| 0 <= j < |s.dispatches| && s.dispatches[j] == Spawned(t);
      assert r.dispatches[j] == Spawned(t);
    }
    forall t, w, a | HasHolder(s, t, w, a) && !s.dispatches[i].Holds(t, w, a) ensures HasHolder(r, t, w, a) {
      var j :| 0 <= j < |s.dispatches| && s.dispatches[j].Holds(t, w, a);
      assert r.dispatches[j].Holds(t, w, a);
    }
  }

  lemma ReplaceCloseLookups(s: State, r: State, i: nat, e: Dispatch)
    requires Replaces(s, r, i, e)
    ensures forall t :: HasClosing(s, t) && !(s.dispatches[i].Closing? && s.dispatches[i].task == t) ==> HasClosing(r, t)
    ensures forall t :: HasLostClose(s, t) && !s.dispatches[i].RaisedAtClose? ==> HasLostClose(r, t)
    ensures e.Closing? ==> HasClosing(r, e.task)
    ensures e.RaisedAtClose? ==> HasLostClose(r, e.task)
  {
    forall t | HasClosing(s, t) && !(s.dispatches[i].Closing? && s.dispatches[i].task == t) ensures HasClosing(r, t) {
      var j :| 0 <= j < |s.dispatches| && s.dispatches[j].Closing? && s.dispatches[j].task == t;
      assert r.dispatches[j] == s.dispatches[j];
    }
    forall t | HasLostClose(s, t) && !s.dispatches[i].RaisedAtClose? ensures HasLostClose(r, t) {
      var j :| 0 <= j < |s.dispatches| && s.dispatches[j].RaisedAtClose? && s.dispatches[j].task == t;
      assert r.dispatches[j] == s.dispatches[j];
    }
    assert r.dispatches[i] == e;
  }

  /** The new dispatch captured the attempt the old one held, or one nobody else holds. */
  ghost predicate FreshCapture(s: State, i: nat, e: Dispatch) {
    e.Started() ==> forall j :: 0 <= j < |s.dispatches| && j != i ==> Apart(e, s.dispatches[j])
  }

  lemma ReplaceUnique(s: State, r: State, i: nat, e: Dispatch)
    requires Replaces(s, r, i, e) && UniqueInv(s) && FreshCapture(s, i, e)
    ensures UniqueInv(r)
  {
    forall j, k | 0 <= j < k < |r.dispatches| ensures Apart(r.dispatches[j], r.dispatches[k]) {
      assert Apart(s.dispatches[j], s.dispatches[k]);
    }
  }

  lemma SameCaptureIsFresh(s: State, i: nat, e: Dispatch)
    requires UniqueInv(s) && i < |s.dispatches| && s.dispatches[i].Started() && e.Started()
    requires e.task == s.dispatches[i].task && e.attempt == s.dispatches[i].attempt
    ensures FreshCapture(s, i, e)
  {
    forall j | 0 <= j < |s.dispatches| && j != i ensures Apart(e, s.dispatches[j]) {
      if i < j { assert Apart(s.dispatches[i], s.dispatches[j]); } else { assert Apart(s.dispatches[j], s.dispatches[i]); }
    }
  }

  // ----- Pending tables -----

  /** Two suspended sends have different request ids, so popping one leaves the others. */
  lemma SendsHaveDistinctIds(s: State, i: nat, j: nat)
    requires UniqueInv(s) && i < |s.dispatches| && j < |s.dispatches| && i != j
    requires s.dispatches[i].Awaiting? && s.dispatches[j].Awaiting?
    ensures AttemptRequestId(s.dispatches[i].task, s.dispatches[i].attempt)
         != AttemptRequestId(s.dispatches[j].task, s.dispatches[j].attempt)
  {
    var d, e := s.dispatches[i], s.dispatches[j];
    AttemptRequestIdInjective(d.task, d.attempt, e.task, e.attempt);
    if i < j { assert Apart(d, e); } else { assert Apart(e, d); }
  }

  lemma PopKeepsPending(s: State, r: State, i: nat, e: Dispatch)
    requires Typed(s) && PendingInv(s) && UniqueInv(s)
    requires Replaces(s, r, i, e) && s.dispatches[i].Awaiting? && !e.Awaiting?
    requires r.links == PopPending(s, i).links
    ensures PendingInv(r)
  {
    var d := s.dispatches[i];
    forall j | 0 <= j < |r.dispatches| && r.dispatches[j].Awaiting? ensures InTable(r, r.dispatches[j]) {
      assert InTable(s, s.dispatches[j]);
      SendsHaveDistinctIds(s, i, j);
    }
    forall l, id | 0 <= l < |r.links| && id in r.links[l].pending ensures HasSend(r, l, id) {
      assert HasSend(s, l, id);
      var j :| 0 <= j < |s.dispatches| && IsSend(s.dispatches[j], l, id);
      assert r.dispatches[j] == s.dispatches[j];
    }
  }

  lemma PushKeepsPending(s: State, r: State, i: nat, e: Dispatch)
    requires Typed(s) && PendingInv(s)
    requires Replaces(s, r, i, e) && s.dispatches[i].Spawned? && e.Awaiting? && e.link < |s.links|
    requires r.links == s.links[e.link := s.links[e.link].(
                 pending := s.links[e.link].pending[AttemptRequestId(e.task, e.attempt) := Unresolved])]
    ensures PendingInv(r)
  {
    forall j | 0 <= j < |r.dispatches| && r.dispatches[j].Awaiting? ensures InTable(r, r.dispatches[j]) {
      if j != i { assert InTable(s, s.dispatches[j]); }
    }
    forall l, id | 0 <= l < |r.links| && id in r.links[l].pending ensures HasSend(r, l, id) {
      if l == e.link && id == AttemptRequestId(e.task, e.attempt) {
        assert IsSend(r.dispatches[i], l, id);
      } else {
        assert HasSend(s, l, id);
        var j :| 0 <= j < |s.dispatches| && IsSend(s.dispatches[j], l, id);
        assert r.dispatches[j] == s.dispatches[j];
      }
    }
  }

  lemma ReplaceKeepsPending(s: State, r: State, i: nat, e: Dispatch)
    requires PendingInv(s) && Replaces(s, r, i, e) && r.links == s.links
    requires if s.dispatches[i].Awaiting? then e == s.dispatches[i].(sent := true) else !e.Awaiting?
    ensures PendingInv(r)
  {
    forall j | 0 <= j < |r.dispatches| && r.dispatches[j].Awaiting? ensures InTable(r, r.dispatches[j]) {
      assert InTable(s, s.dispatches[j]);
    }
    forall l, id | 0 <= l < |r.links| && id in r.links[l].pending ensures HasSend(r, l, id) {
      assert HasSend(s, l, id);
      var j :| 0 <= j < |s.dispatches| && IsSend(s.dispatches[j], l, id);
      assert IsSend(r.dispatches[j], l, id);
    }
  }

  // ----- Recording -----

  lemma RecordRegistry(s: State, t: string, r: Response)
    requires SlotInv(s) && WaiterInv(s) && t !in s.responses
    ensures SlotInv(Record(s, t, r)) && WaiterInv(Record(s, t, r))
  {
    var q := Record(s, t, r);
    forall f | 0 <= f < |q.slots| ensures SlotOk(q, f, q.slots[f]) { assert SlotOk(s, f, s.slots[f]); }
    forall k | 0 <= k < |q.waiters| ensures WaiterOk(q, q.waiters[k]) { assert WaiterOk(s, s.waiters[k]); }
  }

  /** Nothing about `t` is recorded or waiting to be. */
  ghost predicate Unclaimed(s: State, t: string) {
    t !in s.responses && !HasClosing(s, t) && !HasLostClose(s, t)
  }

  lemma RecordKeepsInv(s: State, t: string, r: Response)
    requires Inv(s) && t in s.tasks && s.tasks[t].Terminal() && Unclaimed(s, t)
    ensures Inv(Record(s, t, r))
  {
    var q := Record(s, t, r);
    RecordRegistry(s, t, r);
    FrameTables(s, q);
    assert RecordInv(q) by { SameHolders(s, q); }
  }

  lemma FrameTables(s: State, q: State)
    requires Typed(s) && TaskInv(s) && FailedOwnsNone(s) && CaptureInv(s) && UniqueInv(s) && LiveInv(s) && PendingInv(s)
    requires q.tasks == s.tasks && q.workers == s.workers && q.links == s.links && q.connections == s.connections
    requires q.dispatches == s.dispatches && q.slotOf == s.slotOf && q.waiters == s.waiters && |q.slots| == |s.slots|
    ensures Typed(q) && TaskInv(q) && FailedOwnsNone(q) && CaptureInv(q) && UniqueInv(q) && LiveInv(q) && PendingInv(q)
  {
    SameHolders(s, q);
    SameSendsPending(s, q);
  }

  // ----- Retiring a stale send -----

  function Retire(s: State, i: nat, response: Response): (r: State)
    requires i < |s.dispatches| && s.dispatches[i].Awaiting? && Typed(s)
    ensures Typed(r)
  {
    PopPending(s, i).(dispatches :=
      s.dispatches[i := Returned(s.dispatches[i].task, s.dispatches[i].attempt, response)])
  }

  lemma RetireCapture(s: State, i: nat, response: Response)
    requires Typed(s) && CaptureInv(s) && UniqueInv(s) && i < |s.dispatches| && s.dispatches[i].Awaiting?
    ensures CaptureInv(Retire(s, i, response)) && UniqueInv(Retire(s, i, response))
  {
    var r := Retire(s, i, response);
    var e := r.dispatches[i];
    SameCaptureIsFresh(s, i, e);
    ReplaceUnique(s, r, i, e);
    forall j | 0 <= j < |r.dispatches| && r.dispatches[j].Started()
      ensures CaptureOk(r.tasks[r.dispatches[j].task], r.dispatches[j])
    {
      assert CaptureOk(s.tasks[s.dispatches[j].task], s.dispatches[j]);
    }
  }

  lemma RetireLive(s: State, i: nat, response: Response)
    requires Typed(s) && TaskInv(s) && LiveInv(s) && RecordInv(s)
    requires i < |s.dispatches| && s.dispatches[i].Awaiting? && !Current(s, s.dispatches[i])
    ensures LiveInv(Retire(s, i, response)) && RecordInv(Retire(s, i, response))
  {
    var r := Retire(s, i, response);
    ReplaceLookups(s, r, i, r.dispatches[i]);
    ReplaceCloseLookups(s, r, i, r.dispatches[i]);
  }

  lemma RetireInv(s: State, i: nat, response: Response)
    requires Inv(s) && i < |s.dispatches| && s.dispatches[i].Awaiting? && !Current(s, s.dispatches[i])
    ensures Inv(Retire(s, i, response))
  {
    var r := Retire(s, i, response);
    RetireCapture(s, i, response);
    RetireLive(s, i, response);
    PopKeepsPending(s, r, i, r.dispatches[i]);
    RegistryFrame(s, r);
  }

  // ----- Dying of an uncaught error -----

  lemma StrandCapture(s: State, i: nat)
    requires Typed(s) && CaptureInv(s) && UniqueInv(s) && i < |s.dispatches| && s.dispatches[i].Awaiting?
    ensures CaptureInv(Strand(s, i)) && UniqueInv(Strand(s, i))
  {
    var r := Strand(s, i);
    var e := r.dispatches[i];
    SameCaptureIsFresh(s, i, e);
    ReplaceUnique(s, r, i, e);
    forall j | 0 <= j < |r.dispatches| && r.dispatches[j].Started()
      ensures CaptureOk(r.tasks[r.dispatches[j].task], r.dispatches[j])
    {
      assert CaptureOk(s.tasks[s.dispatches[j].task], s.dispatches[j]);
    }
  }

  lemma StrandLive(s: State, i: nat)
    requires Typed(s) && LiveInv(s) && RecordInv(s) && i < |s.dispatches| && s.dispatches[i].Awaiting?
    ensures LiveInv(Strand(s, i)) && RecordInv(Strand(s, i))
  {
    var r := Strand(s, i);
    ReplaceLookups(s, r, i, r.dispatches[i]);
    ReplaceCloseLookups(s, r, i, r.dispatches[i]);
  }

  lemma StrandInv(s: State, i: nat)
    requires Inv(s) && i < |s.dispatches| && s.dispatches[i].Awaiting?
    ensures Inv(Strand(s, i))
  {
    var r := Strand(s, i);
    StrandCapture(s, i);
    StrandLive(s, i);
    PopKeepsPending(s, r, i, r.dispatches[i]);
    RegistryFrame(s, r);
  }

  // ----- Errors -----

  /** A current send's task is in flight, so nothing about it is recorded. */
  lemma InFlightUnclaimed(s: State, t: string)
    requires Typed(s) && CaptureInv(s) && RecordInv(s) && t in s.tasks && s.tasks[t].InFlight()
    ensures Unclaimed(s, t)
  {
    forall i | 0 <= i < |s.dispatches| && s.dispatches[i].Started() && s.dispatches[i].task == t
      ensures !s.dispatches[i].Closing? && !s.dispatches[i].RaisedAtClose?
    {
      assert CaptureOk(s.tasks[t], s.dispatches[i]);
    }
  }

  lemma CurrentIsRunning(s: State, i: nat)
    requires Typed(s) && CaptureInv(s) && i < |s.dispatches| && s.dispatches[i].Awaiting? && Current(s, s.dispatches[i])
    ensures s.tasks[s.dispatches[i].task].status.Running?
  {
    assert CaptureOk(s.tasks[s.dispatches[i].task], s.dispatches[i]);
  }

  /** After the worker is lost, the dispatch is stale: retire it, then record if given up. */
  lemma LostThenRetired(s: State, i: nat)
    requires Inv(s) && i < |s.dispatches| && s.dispatches[i].Awaiting? && Current(s, s.dispatches[i])
    ensures var d := s.dispatches[i];
            var r := Retire(RequeueState(s, {d.worker}), i, Unreachable(d.task, d.attempt));
            Inv(r) && Unclaimed(r, d.task)
  {
    var d := s.dispatches[i];
    CurrentIsRunning(s, i);
    InFlightUnclaimed(s, d.task);
    var q := RequeueState(s, {d.worker});
    RequeueInv(s, {d.worker});
    assert q.tasks[d.task].worker.None?;
    RetireInv(q, i, Unreachable(d.task, d.attempt));
    RetireKeepsUnclaimed(s, q, i, Unreachable(d.task, d.attempt), d.task);
  }

  lemma RetireKeepsUnclaimed(s: State, q: State, i: nat, response: Response, t: string)
    requires Typed(q) && q.dispatches == s.dispatches && q.responses == s.responses && Unclaimed(s, t)
    requires i < |s.dispatches| && s.dispatches[i].Awaiting?
    ensures Unclaimed(Retire(q, i, response), t)
  {
    var r := Retire(q, i, response);
    forall j | 0 <= j < |r.dispatches| && r.dispatches[j].task == t
      ensures !r.dispatches[j].Closing? && !r.dispatches[j].RaisedAtClose?
    {
      assert j != i ==> r.dispatches[j] == s.dispatches[j];
    }
  }

  lemma ResumeErrorIsLostThenRetired(s: State, i: nat)
    requires Typed(s) && i < |s.dispatches| && s.dispatches[i].Awaiting?
    requires Typed(RequeueState(s, {s.dispatches[i].worker}))
    ensures var d := s.dispatches[i];
            var response := Unreachable(d.task, d.attempt);
            DoResumeError(s, i) ==
            if Current(s, d)
            then RecordIfTerminal(Retire(RequeueState(s, {d.worker}), i, response), d.task, response)
            else Retire(s, i, response)
  {
  }

  lemma ResumeErrorInv(s: State, i: nat)
    requires Inv(s) && i < |s.dispatches| && s.dispatches[i].Awaiting?
    ensures Inv(DoResumeError(s, i))
  {
    var d := s.dispatches[i];
    var response := Unreachable(d.task, d.attempt);
    RequeueCaptureInv(s, {d.worker});
    ResumeErrorIsLostThenRetired(s, i);
    if Current(s, d) {
      LostThenRetired(s, i);
      var r := Retire(RequeueState(s, {d.worker}), i, response);
      if r.tasks[d.task].Terminal() { RecordKeepsInv(r, d.task, response); }
    } else {
      RetireInv(s, i, response);
    }
  }

  // ----- Replies -----

  /** The task is finished and its worker released, but the response is not recorded yet. */
  function Finish(s: State, i: nat, ok: bool, response: Response): (r: State)
    requires i < |s.dispatches| && s.dispatches[i].Awaiting? && Typed(s)
    ensures Typed(r)
  {
    var d := s.dispatches[i];
    PopPending(s, i).(
      tasks := s.tasks[d.task := s.tasks[d.task].(status := if ok then Completed else TaskFailed)],
      workers := Release(s.workers, d.worker),
      dispatches := s.dispatches[i := Closing(d.task, d.worker, d.attempt, response)])
  }

  lemma FinishTaskInv(s: State, i: nat, ok: bool, response: Response)
    requires Typed(s) && TaskInv(s) && FailedOwnsNone(s) && CaptureInv(s)
    requires i < |s.dispatches| && s.dispatches[i].Awaiting? && Current(s, s.dispatches[i])
    ensures TaskInv(Finish(s, i, ok, response)) && FailedOwnsNone(Finish(s, i, ok, response))
  {
    var r := Finish(s, i, ok, response);
    CurrentIsRunning(s, i);
    forall u | u in r.tasks ensures TaskOk(r.workers, r.tasks[u]) { assert TaskOk(s.workers, s.tasks[u]); }
  }

  lemma FinishCapture(s: State, i: nat, ok: bool, response: Response)
    requires Typed(s) && CaptureInv(s) && UniqueInv(s)
    requires i < |s.dispatches| && s.dispatches[i].Awaiting? && Current(s, s.dispatches[i])
    ensures CaptureInv(Finish(s, i, ok, response)) && UniqueInv(Finish(s, i, ok, response))
  {
    var r := Finish(s, i, ok, response);
    var e := r.dispatches[i];
    SameCaptureIsFresh(s, i, e);
    ReplaceUnique(s, r, i, e);
    forall j | 0 <= j < |r.dispatches| && r.dispatches[j].Started()
      ensures CaptureOk(r.tasks[r.dispatches[j].task], r.dispatches[j])
    {
      assert CaptureOk(s.tasks[s.dispatches[j].task], s.dispatches[j]);
      assert j != i ==> Apart(e, s.dispatches[j]);
    }
  }

  lemma FinishLive(s: State, i: nat, ok: bool, response: Response)
    requires Typed(s) && CaptureInv(s) && LiveInv(s) && RecordInv(s)
    requires i < |s.dispatches| && s.dispatches[i].Awaiting? && Current(s, s.dispatches[i])
    ensures LiveInv(Finish(s, i, ok, response)) && RecordInv(Finish(s, i, ok, response))
  {
    var r := Finish(s, i, ok, response);
    CurrentIsRunning(s, i);
    ReplaceLookups(s, r, i, r.dispatches[i]);
    ReplaceCloseLookups(s, r, i, r.dispatches[i]);
  }

  lemma FinishInv(s: State, i: nat, ok: bool, response: Response)
    requires Inv(s) && i < |s.dispatches| && s.dispatches[i].Awaiting? && Current(s, s.dispatches[i])
    ensures Inv(Finish(s, i, ok, response))
  {
    var r := Finish(s, i, ok, response);
    FinishTaskInv(s, i, ok, response);
    FinishCapture(s, i, ok, response);
    FinishLive(s, i, ok, response);
    PopKeepsPending(s, r, i, r.dispatches[i]);
    RegistryFrame(s, r);
  }

  // ----- Leaving a draining close -----

  lemma LeaveCloseCapture(s: State, r: State, i: nat, e: Dispatch)
    requires Typed(s) && CaptureInv(s) && UniqueInv(s) && Replaces(s, r, i, e) && r.tasks == s.tasks
    requires s.dispatches[i].Closing? && (e.Returned? || e.RaisedAtClose?)
    requires e.task == s.dispatches[i].task && e.attempt == s.dispatches[i].attempt
    ensures CaptureInv(r) && UniqueInv(r)
  {
    SameCaptureIsFresh(s, i, e);
    ReplaceUnique(s, r, i, e);
    forall j | 0 <= j < |r.dispatches| && r.dispatches[j].Started() && r.dispatches[j].task in r.tasks
      ensures CaptureOk(r.tasks[r.dispatches[j].task], r.dispatches[j])
    {
      assert CaptureOk(s.tasks[s.dispatches[j].task], s.dispatches[j]);
    }
  }

  lemma CloseFailsInv(s: State, i: nat)
    requires Inv(s) && i < |s.dispatches| && s.dispatches[i].Closing?
    ensures Inv(s.(dispatches := s.dispatches[i := RaisedAtClose(s.dispatches[i].task, s.dispatches[i].attempt)]))
  {
    var e := RaisedAtClose(s.dispatches[i].task, s.dispatches[i].attempt);
    var r := s.(dispatches := s.dispatches[i := e]);
    LeaveCloseCapture(s, r, i, e);
    ReplaceKeepsPending(s, r, i, e);
    RegistryFrame(s, r);
    CloseFailsLive(s, r, i, e);
  }

  lemma CloseFailsLive(s: State, r: State, i: nat, e: Dispatch)
    requires LiveInv(s) && RecordInv(s) && Replaces(s, r, i, e) && s.dispatches[i].Closing?
    requires e.RaisedAtClose? && e.task == s.dispatches[i].task
    requires r.tasks == s.tasks && r.responses == s.responses
    ensures LiveInv(r) && RecordInv(r)
  {
    ReplaceLookups(s, r, i, e);
    ReplaceCloseLookups(s, r, i, e);
  }

  lemma OthersApart(s: State, i: nat, j: nat)
    requires UniqueInv(s) && i < |s.dispatches| && j < |s.dispatches| && i != j
    ensures Apart(s.dispatches[i], s.dispatches[j])
  {
    if i < j { assert Apart(s.dispatches[i], s.dispatches[j]); } else { assert Apart(s.dispatches[j], s.dispatches[i]); }
  }

  /** At most one dispatch per task is suspended in, or died in, a draining close. */
  lemma OnlyClose(s: State, i: nat, j: nat)
    requires Typed(s) && CaptureInv(s) && i < |s.dispatches| && j < |s.dispatches|
    requires i != j ==> Apart(s.dispatches[i], s.dispatches[j])
    requires s.dispatches[i].Closing? && s.dispatches[i].task == s.dispatches[j].task
    ensures i == j || !(s.dispatches[j].Closing? || s.dispatches[j].RaisedAtClose?)
  {
    assert CaptureOk(s.tasks[s.dispatches[i].task], s.dispatches[i]);
    if s.dispatches[j].Started() { assert CaptureOk(s.tasks[s.dispatches[j].task], s.dispatches[j]); }
  }

  lemma CloseDoneRecord(s: State, i: nat)
    requires Typed(s) && CaptureInv(s) && UniqueInv(s) && LiveInv(s) && RecordInv(s)
    requires i < |s.dispatches| && s.dispatches[i].Closing?
    ensures LiveInv(DoCloseDone(s, i)) && RecordInv(DoCloseDone(s, i))
    ensures s.tasks[s.dispatches[i].task].Terminal()
  {
    var r := DoCloseDone(s, i);
    var t := s.dispatches[i].task;
    assert CaptureOk(s.tasks[t], s.dispatches[i]);
    ReplaceLookups(s, r, i, r.dispatches[i]);
    ReplaceCloseLookups(s, r, i, r.dispatches[i]);
    forall j | 0 <= j < |r.dispatches| && j != i && s.dispatches[j].task == t
      ensures !(s.dispatches[j].Closing? || s.dispatches[j].RaisedAtClose?)
    {
      OthersApart(s, i, j);
      OnlyClose(s, i, j);
    }
  }

  lemma CloseDoneInv(s: State, i: nat)
    requires Inv(s) && i < |s.dispatches| && s.dispatches[i].Closing?
    ensures Inv(DoCloseDone(s, i))
  {
    var d := s.dispatches[i];
    var r := DoCloseDone(s, i);
    CloseDoneRecord(s, i);
    RecordRegistry(s, d.task, d.response);
    LeaveCloseCapture(s, r, i, r.dispatches[i]);
    ReplaceKeepsPending(s, r, i, r.dispatches[i]);
    RegistryFrame(Record(s, d.task, d.response), r);
  }

  ghost predicate ClosesLink(s: State, w: string) {
    w in s.workers && s.workers[w].status.Draining? && w in s.connections
  }

  lemma FinishTaskIsFinish(s: State, i: nat, ok: bool, response: Response)
    requires Typed(s) && i < |s.dispatches| && s.dispatches[i].Awaiting? && s.tasks[s.dispatches[i].task].status.Running?
    ensures var closing := Finish(s, i, ok, response);
            FinishTask(PopPending(s, i), i, ok, response) ==
            if ClosesLink(s, s.dispatches[i].worker) then closing else DoCloseDone(closing, i)
  {
  }

  lemma ReplyIsFinishThenClose(s: State, i: nat, m: Message)
    requires Typed(s) && CaptureInv(s) && i < |s.dispatches| && s.dispatches[i].Awaiting?
    ensures var d := s.dispatches[i];
            var closing := Finish(s, i, Succeeded(m), WorkerReply(m));
            DoResumeReply(s, i, m) ==
            if !Current(s, d) then Retire(s, i, WorkerReply(m))
            else if m.body.StatuslessResult? then Strand(s, i)
            else if ClosesLink(s, d.worker) then closing
            else DoCloseDone(closing, i)
  {
    if Current(s, s.dispatches[i]) {
      CurrentIsRunning(s, i);
      FinishTaskIsFinish(s, i, Succeeded(m), WorkerReply(m));
    }
  }

  lemma ResumeReplyInv(s: State, i: nat, m: Message)
    requires Inv(s) && i < |s.dispatches| && s.dispatches[i].Awaiting?
    ensures Inv(DoResumeReply(s, i, m))
  {
    ReplyIsFinishThenClose(s, i, m);
    if Current(s, s.dispatches[i]) && m.body.StatuslessResult? {
      StrandInv(s, i);
    } else if Current(s, s.dispatches[i]) {
      FinishInv(s, i, Succeeded(m), WorkerReply(m));
      CloseDoneInv(Finish(s, i, Succeeded(m), WorkerReply(m)), i);
    } else {
      RetireInv(s, i, WorkerReply(m));
    }
  }

  // ----- Starting -----

  /** Nobody captured the attempt an ASSIGNED task is at. */
  lemma AssignedIsFresh(s: State, i: nat, e: Dispatch)
    requires Typed(s) && CaptureInv(s) && i < |s.dispatches|
    requires e.Started() && e.task in s.tasks && s.tasks[e.task].status.Assigned? && e.attempt == s.tasks[e.task].attempt
    ensures FreshCapture(s, i, e)
  {
    forall j | 0 <= j < |s.dispatches| && j != i ensures Apart(e, s.dispatches[j]) {
      if s.dispatches[j].Started() { assert CaptureOk(s.tasks[s.dispatches[j].task], s.dispatches[j]); }
    }
  }

  lemma RaiseAtStartInv(s: State, i: nat)
    requires Inv(s) && i < |s.dispatches| && s.dispatches[i].Spawned? && !s.tasks[s.dispatches[i].task].status.Assigned?
    ensures Inv(s.(dispatches := s.dispatches[i := RaisedAtStart(s.dispatches[i].task)]))
  {
    var e := RaisedAtStart(s.dispatches[i].task);
    var r := s.(dispatches := s.dispatches[i := e]);
    ReplaceUnique(s, r, i, e);
    ReplaceKeepsPending(s, r, i, e);
    RegistryFrame(s, r);
    RaiseAtStartLive(s, r, i, e);
  }

  lemma RaiseAtStartLive(s: State, r: State, i: nat, e: Dispatch)
    requires Typed(s) && LiveInv(s) && RecordInv(s) && Replaces(s, r, i, e) && e.RaisedAtStart?
    requires s.dispatches[i].Spawned? && !s.tasks[s.dispatches[i].task].status.Assigned?
    requires r.tasks == s.tasks && r.responses == s.responses
    ensures LiveInv(r) && RecordInv(r)
  {
    ReplaceLookups(s, r, i, e);
    ReplaceCloseLookups(s, r, i, e);
  }

  /** Starting with a connection. */
  function Send(s: State, i: nat): (r: State)
    requires StartsAssigned(s, i) && s.tasks[s.dispatches[i].task].worker.value in s.connections
    ensures Typed(r)
  {
    var t := s.dispatches[i].task;
    var task := s.tasks[t];
    var l := s.connections[task.worker.value];
    s.(tasks := s.tasks[t := task.(status := Running)],
       dispatches := s.dispatches[i := Awaiting(t, task.worker.value, task.attempt, l, false)],
       links := s.links[l := s.links[l].(
         pending := s.links[l].pending[AttemptRequestId(t, task.attempt) := Unresolved])])
  }

  ghost predicate StartsAssigned(s: State, i: nat) {
    && Typed(s) && i < |s.dispatches| && s.dispatches[i].Spawned?
    && s.tasks[s.dispatches[i].task].status.Assigned? && s.tasks[s.dispatches[i].task].worker.Some?
  }

  lemma SendCapture(s: State, i: nat)
    requires StartsAssigned(s, i) && s.tasks[s.dispatches[i].task].worker.value in s.connections
    requires TaskInv(s) && CaptureInv(s) && UniqueInv(s)
    ensures CaptureInv(Send(s, i)) && UniqueInv(Send(s, i))
  {
    var r := Send(s, i);
    var e := r.dispatches[i];
    AssignedIsFresh(s, i, e);
    ReplaceUnique(s, r, i, e);
    assert TaskOk(s.workers, s.tasks[e.task]);
    forall j | 0 <= j < |r.dispatches| && r.dispatches[j].Started()
      ensures CaptureOk(r.tasks[r.dispatches[j].task], r.dispatches[j])
    {
      if j != i { assert CaptureOk(s.tasks[s.dispatches[j].task], s.dispatches[j]); assert Apart(e, s.dispatches[j]); }
    }
  }

  lemma SendTaskInv(s: State, i: nat)
    requires StartsAssigned(s, i) && s.tasks[s.dispatches[i].task].worker.value in s.connections
    requires TaskInv(s) && FailedOwnsNone(s)
    ensures TaskInv(Send(s, i)) && FailedOwnsNone(Send(s, i))
  {
    var r := Send(s, i);
    forall u | u in r.tasks ensures TaskOk(r.workers, r.tasks[u]) { assert TaskOk(s.workers, s.tasks[u]); }
  }

  lemma SendLive(s: State, i: nat)
    requires StartsAssigned(s, i) && s.tasks[s.dispatches[i].task].worker.value in s.connections
    requires LiveInv(s)
    ensures LiveInv(Send(s, i))
  {
    var r := Send(s, i);
    var t := s.dispatches[i].task;
    ReplaceLookups(s, r, i, r.dispatches[i]);
    assert r.dispatches[i].Holds(t, s.tasks[t].worker.value, s.tasks[t].attempt);
  }

  lemma SendRecord(s: State, i: nat)
    requires StartsAssigned(s, i) && s.tasks[s.dispatches[i].task].worker.value in s.connections
    requires RecordInv(s)
    ensures RecordInv(Send(s, i))
  {
    ReplaceCloseLookups(s, Send(s, i), i, Send(s, i).dispatches[i]);
  }

  lemma SendInv(s: State, i: nat)
    requires Inv(s) && StartsAssigned(s, i) && s.tasks[s.dispatches[i].task].worker.value in s.connections
    ensures Inv(Send(s, i))
  {
    var r := Send(s, i);
    SendTaskInv(s, i);
    SendCapture(s, i);
    SendLive(s, i);
    SendRecord(s, i);
    PushKeepsPending(s, r, i, r.dispatches[i]);
    RegistryFrame(s, r);
  }

  /** Starting without a connection: the worker is lost and the dispatch returns at once. */
  function Bounce(s: State, i: nat): (r: State)
    requires StartsAssigned(s, i)
    ensures Typed(r)
  {
    var t := s.dispatches[i].task;
    var task := s.tasks[t];
    RequeueState(s, {task.worker.value}).(
      dispatches := s.dispatches[i := Returned(t, task.attempt, Unreachable(t, task.attempt))])
  }

  lemma BounceCapture(s: State, i: nat)
    requires Inv(s) && StartsAssigned(s, i)
    ensures CaptureInv(Bounce(s, i)) && UniqueInv(Bounce(s, i))
  {
    var t := s.dispatches[i].task;
    var r := Bounce(s, i);
    var e := r.dispatches[i];
    var q := RequeueState(s, {s.tasks[t].worker.value});
    AssignedIsFresh(s, i, e);
    RequeueCaptureInv(s, {s.tasks[t].worker.value});
    ReplaceUnique(q, r, i, e);
    assert TaskOk(s.workers, s.tasks[t]);
    forall j | 0 <= j < |r.dispatches| && r.dispatches[j].Started()
      ensures CaptureOk(r.tasks[r.dispatches[j].task], r.dispatches[j])
    {
      if j != i { assert CaptureOk(q.tasks[q.dispatches[j].task], q.dispatches[j]); }
    }
  }

  lemma BounceInv(s: State, i: nat)
    requires Inv(s) && StartsAssigned(s, i)
    ensures Inv(Bounce(s, i)) && Unclaimed(Bounce(s, i), s.dispatches[i].task)
  {
    var t := s.dispatches[i].task;
    var q := RequeueState(s, {s.tasks[t].worker.value});
    var r := Bounce(s, i);
    var e := r.dispatches[i];
    RequeueInv(s, {s.tasks[t].worker.value});
    BounceCapture(s, i);
    BounceLive(q, r, i, e);
    ReplaceKeepsPending(q, r, i, e);
    RegistryFrame(q, r);
    BounceUnclaimed(s, i);
  }

  lemma BounceLive(q: State, r: State, i: nat, e: Dispatch)
    requires LiveInv(q) && RecordInv(q) && Replaces(q, r, i, e) && e.Returned?
    requires q.dispatches[i].Spawned? && q.dispatches[i].task in q.tasks && !q.tasks[q.dispatches[i].task].status.Assigned?
    requires r.tasks == q.tasks && r.responses == q.responses
    ensures LiveInv(r) && RecordInv(r)
  {
    ReplaceLookups(q, r, i, e);
    ReplaceCloseLookups(q, r, i, e);
  }

  lemma BounceUnclaimed(s: State, i: nat)
    requires Inv(s) && StartsAssigned(s, i)
    ensures Unclaimed(Bounce(s, i), s.dispatches[i].task)
  {
    var t := s.dispatches[i].task;
    var r := Bounce(s, i);
    InFlightUnclaimed(s, t);
    forall j | 0 <= j < |r.dispatches| && r.dispatches[j].task == t
      ensures !r.dispatches[j].Closing? && !r.dispatches[j].RaisedAtClose?
    {
      assert j != i ==> r.dispatches[j] == s.dispatches[j];
    }
  }

  lemma StartIsSendOrBounce(s: State, i: nat)
    requires StartsAssigned(s, i)
    ensures var t := s.dispatches[i].task;
            DoStart(s, i) ==
            if s.tasks[t].worker.value in s.connections then Send(s, i)
            else RecordIfTerminal(Bounce(s, i), t, Unreachable(t, s.tasks[t].attempt))
  {
    var t := s.dispatches[i].task;
    var w := s.tasks[t].worker.value;
    assert Requeue(s.tasks[t := s.tasks[t].(status := Running)], {w}) == Requeue(s.tasks, {w});
  }

  lemma StartInv(s: State, i: nat)
    requires Inv(s) && i < |s.dispatches| && s.dispatches[i].Spawned?
    ensures Inv(DoStart(s, i))
  {
    var t := s.dispatches[i].task;
    assert TaskOk(s.workers, s.tasks[t]);
    if s.tasks[t].status.Assigned? {
      StartIsSendOrBounce(s, i);
      if s.tasks[t].worker.value in s.connections {
        SendInv(s, i);
      } else {
        BounceInv(s, i);
        var r := Bounce(s, i);
        if r.tasks[t].Terminal() { RecordKeepsInv(r, t, Unreachable(t, s.tasks[t].attempt)); }
      }
    } else {
      RaiseAtStartInv(s, i);
    }
  }

  lemma SendDoneInv(s: State, i: nat)
    requires Inv(s) && i < |s.dispatches| && s.dispatches[i].Awaiting?
    ensures Inv(s.(dispatches := s.dispatches[i := s.dispatches[i].(sent := true)]))
  {
    var e := s.dispatches[i].(sent := true);
    var r := s.(dispatches := s.dispatches[i := e]);
    SendDoneTables(s, r, i, e);
    RegistryFrame(s, r);
    SendDoneLive(s, r, i, e);
  }

  lemma SendDoneTables(s: State, r: State, i: nat, e: Dispatch)
    requires Typed(s) && UniqueInv(s) && PendingInv(s) && i < |s.dispatches| && s.dispatches[i].Awaiting?
    requires e == s.dispatches[i].(sent := true) && r == s.(dispatches := s.dispatches[i := e])
    ensures Typed(r) && UniqueInv(r) && PendingInv(r)
  {
    SameCaptureIsFresh(s, i, e);
    ReplaceUnique(s, r, i, e);
    ReplaceKeepsPending(s, r, i, e);
  }

  lemma SendDoneLive(s: State, r: State, i: nat, e: Dispatch)
    requires Typed(s) && CaptureInv(s) && LiveInv(s) && RecordInv(s) && Replaces(s, r, i, e)
    requires s.dispatches[i].Awaiting? && e == s.dispatches[i].(sent := true)
    requires r.tasks == s.tasks && r.responses == s.responses
    ensures CaptureInv(r) && LiveInv(r) && RecordInv(r)
  {
    ReplaceLookups(s, r, i, e);
    ReplaceCloseLookups(s, r, i, e);
    assert r.dispatches[i].Holds(e.task, e.worker, e.attempt);
    forall j | 0 <= j < |r.dispatches| && r.dispatches[j].Started() && r.dispatches[j].task in r.tasks
      ensures CaptureOk(r.tasks[r.dispatches[j].task], r.dispatches[j])
    {
      assert CaptureOk(s.tasks[s.dispatches[j].task], s.dispatches[j]);
    }
  }
}
