/** What single steps, and pairs of steps, do to the tables, said of the tables alone. */
module Effects {
  import opened Entities
  import opened Protocol
  import opened Invariant
  import opened DispatchSteps
  import opened Traces
  import opened WorkerLife

  // ----- Workers -----

  /** Every worker but `w` is as it was. */
  ghost predicate OthersKept(workers: map<string, Worker>, after: map<string, Worker>, w: string) {
    forall v :: v != w ==> (v in after <==> v in workers) && (v in workers ==> after[v] == workers[v])
  }

  /** Draining leaves a worker REGISTERED, IDLE or BUSY no longer, one that was already down as it
      was, and every other worker alone. */
  lemma DrainingTakesEffect(workers: map<string, Worker>, w: string)
    ensures OthersKept(workers, DrainWorker(workers, w), w)
    ensures w in DrainWorker(workers, w) <==> w in workers
    ensures w in workers ==>
              var before, after := workers[w], DrainWorker(workers, w)[w];
              && Down(after.status)
              && after == if Down(before.status) then before else before.(status := Draining)
  {
  }

  /** A SHUTDOWN that reaches the handler drains exactly the worker it names and is acknowledged; one
      for an unknown worker changes nothing. */
  lemma ShutdownDrains(s: State, l: nat, m: Message)
    requires Typed(s) && l < |s.links| && Handled(s, l, m) && m.body.Shutdown?
    ensures var w, r := m.body.workerId, DoReceive(s, l, m);
            && (w !in s.workers ==> r == s)
            && (w in s.workers ==>
                  && w in r.workers && OthersKept(s.workers, r.workers, w)
                  && !r.workers[w].status.Registered? && !r.workers[w].status.Idle? && !r.workers[w].status.Busy?
                  && (Down(s.workers[w].status) ==> r.workers[w] == s.workers[w])
                  && r == s.(workers := r.workers, links := s.links[l := s.links[l].(phase := AckingShutdown)]))
  {
    DrainingTakesEffect(s.workers, m.body.workerId);
  }

  /** Connection `l` is the installed one of worker `w`. */
  predicate Installed(s: State, l: nat, w: string) {
    l < |s.links| && s.links[l].owner == Some(w) && w in s.connections && s.connections[w] == l
  }

  /** Once a SHUTDOWN is acknowledged on a worker's own connection: with no send pending the worker is
      STOPPED if it was draining, and its connection is gone; otherwise nothing but the reading goes on. */
  lemma AcknowledgedShutdown(s: State, l: nat, w: string)
    requires Typed(s) && Installed(s, l, w) && s.links[l].phase.AckingShutdown? && w in s.workers
    ensures var r := DoFinishAck(s, l);
            if s.links[l].pending == map[] then
              && r.connections == s.connections - {w} && r.links[l].phase.Exited?
              && w in r.workers && OthersKept(s.workers, r.workers, w)
              && r.workers[w] == if s.workers[w].status.Draining? then s.workers[w].(status := Stopped) else s.workers[w]
            else r == s.(links := s.links[l := s.links[l].(phase := Reading)])
  {
  }

  /** A SHUTDOWN of a live worker on its own connection with nothing pending, once acknowledged,
      leaves it STOPPED and out of `connections`, whatever tasks it has been assigned; no other
      worker, connection or task changes. */
  lemma ShutdownStops(s: State, l: nat, m: Message, w: string)
    requires Typed(s) && Installed(s, l, w) && s.links[l].phase.Reading? && s.links[l].pending == map[]
    requires m.body == Shutdown(w) && w in s.workers && !Down(s.workers[w].status)
    ensures Enabled(s, Receive(l, m)) && Enabled(Apply(s, Receive(l, m)), FinishAck(l))
    ensures var r := Apply(Apply(s, Receive(l, m)), FinishAck(l));
            && w in r.workers && r.workers[w] == s.workers[w].(status := Stopped) && OthersKept(s.workers, r.workers, w)
            && r.connections == s.connections - {w}
            && r.tasks == s.tasks && r.dispatches == s.dispatches && r.responses == s.responses
  {
    var q := DoReceive(s, l, m);
    assert Apply(s, Receive(l, m)) == q;
    ShutdownDrains(s, l, m);
    AcknowledgedShutdown(q, l, w);
  }

  /** A registration that is accepted and acknowledged makes the worker IDLE at the address it gave,
      one generation up, and installs its connection; a rejected one changes nothing. Only a new id or
      one that is FAILED or STOPPED is accepted. */
  lemma RegistrationInstalls(s: State, l: nat, m: Message)
    requires Typed(s) && l < |s.links| && s.links[l].phase.Reading? && Handled(s, l, m) && m.body.Register?
    ensures var w, host, port := m.body.workerId, m.body.host, m.body.port;
            var q := DoReceive(s, l, m);
            if |w| > 0 && |host| > 0 && 1 <= port <= 65535
               && (w in s.workers ==> s.workers[w].status.WorkerFailed? || s.workers[w].status.Stopped?)
            then
              var r := DoFinishAck(q, l);
              && q.links[l].phase == AckingRegister(w) && q.connections == s.connections
              && Installed(r, l, w) && r.links[l].phase.Reading? && r.connections == s.connections[w := l]
              && w in r.workers && OthersKept(s.workers, r.workers, w)
              && r.workers[w] == Worker(host, port, Idle, (if w in s.workers then s.workers[w].generation else 0) + 1)
              && r.tasks == s.tasks && r.dispatches == s.dispatches
            else q == s
  {
  }

  // ----- Losing workers -----

  /** What losing its worker does to a task in flight: it is tried again unless this was its third
      attempt. */
  ghost predicate LostOwner(k: Task, k': Task) {
    k' == Task(k.taskType, k.payload, if k.attempt < 3 then Pending else TaskFailed, None, k.attempt)
  }

  /** Losing workers marks exactly those FAILED and takes exactly their tasks in flight from them. */
  lemma LosingWorkers(s: State, ws: set<string>)
    ensures var r := RequeueState(s, ws);
            && r == s.(workers := r.workers, tasks := r.tasks)
            && r.workers.Keys == s.workers.Keys && r.tasks.Keys == s.tasks.Keys
            && (forall w :: w in s.workers ==>
                  r.workers[w] == if w in ws then s.workers[w].(status := WorkerFailed) else s.workers[w])
            && (forall t :: t in s.tasks ==>
                  if (s.tasks[t].status.Assigned? || s.tasks[t].status.Running?) && s.tasks[t].worker.Some? && s.tasks[t].worker.value in ws
                  then LostOwner(s.tasks[t], r.tasks[t]) else r.tasks[t] == s.tasks[t])
  {
  }

  // ----- Sends -----

  /** A handler that ends wakes every send still waiting on its connection with an error, and takes
      no reply back that a send already has; sends on other connections are not touched. */
  lemma ExitWakesSends(s: State, l: nat, i: nat, f: Future)
    requires Typed(s) && l < |s.links| && FutureIs(s, i, f)
    ensures FutureIs(Exit(s, l), i, if f.Unresolved? && s.dispatches[i].link == l then GotError else f)
  {
  }

  // ----- Decisions -----

  /** How a message decides the attempt it answers. */
  function Verdict(body: Body): TaskStatus {
    match body
    case TaskResult(_, _, Success(_)) => Completed
    case _ => TaskFailed
  }

  /** `t` is decided as `status`; `w` is handed back as IDLE unless it is draining; nothing else
      happens to tasks or workers. */
  ghost predicate DecidedAs(s: State, r: State, t: string, w: string, status: TaskStatus) {
    && t in s.tasks && r.tasks == s.tasks[t := s.tasks[t].(status := status)]
    && w in s.workers && w in r.workers && OthersKept(s.workers, r.workers, w)
    && r.workers[w] == if s.workers[w].status.Draining? then s.workers[w] else s.workers[w].(status := Idle)
  }

  lemma ReleaseDecides(s: State, r: State, t: string, w: string, status: TaskStatus)
    requires t in s.tasks && r.tasks == s.tasks[t := s.tasks[t].(status := status)]
    requires w in s.workers && r.workers == Release(s.workers, w)
    ensures DecidedAs(s, r, t, w, status)
  {
  }

  /** A reply to a current attempt decides its task: COMPLETED for a TASK_RESULT that says success,
      FAILED for every other message. */
  lemma CurrentReplyDecides(s: State, i: nat, m: Message)
    requires Inv(s) && i < |s.dispatches| && s.dispatches[i].Awaiting? && DecidesCurrent(s, i, m)
    ensures DecidedAs(s, DoResumeReply(s, i, m), s.dispatches[i].task, s.dispatches[i].worker, Verdict(m.body))
  {
    ReleasedIsKnown(s, i);
    CurrentIsRunning(s, i);
    ReplyWorkersTable(s, i, m);
    ReplyDecidesTask(s, i, m);
    ReleaseDecides(s, DoResumeReply(s, i, m), s.dispatches[i].task, s.dispatches[i].worker, Verdict(m.body));
  }

  lemma ReplyDecidesTask(s: State, i: nat, m: Message)
    requires Typed(s) && i < |s.dispatches| && s.dispatches[i].Awaiting? && Current(s, s.dispatches[i]) && !m.body.StatuslessResult?
    requires s.tasks[s.dispatches[i].task].status.Running?
    ensures var t := s.dispatches[i].task;
            DoResumeReply(s, i, m).tasks == s.tasks[t := s.tasks[t].(status := Verdict(m.body))]
  {
    assert Succeeded(m) <==> Verdict(m.body).Completed?;
  }

  // ----- Waiters -----

  /** One more waiter, the others as they were. */
  ghost predicate Joins(s: State, r: State, w: Waiter) { r.waiters == s.waiters + [w] }

  ghost predicate AllRecorded(s: State, ids: seq<string>) { forall t :: t in ids ==> t in s.responses }

  lemma NothingMissing(s: State, ids: seq<string>)
    ensures Unrecorded(s, ids) == [] <==> AllRecorded(s, ids)
  {
    var missing := Unrecorded(s, ids);
    if missing == [] { assert forall t :: t !in missing; }
    if missing != [] { assert missing[0] in missing; }
  }

  /** A wait whose tasks are all recorded returns at once, with each id's entry in the order asked. */
  lemma WaitReturnsAtOnce(s: State, ids: seq<string>)
    requires Typed(s) && AllRecorded(s, ids)
    ensures exists results :: Joins(s, DoWait(s, ids), Finished(ids, results)) && |results| == |ids|
              && forall n :: 0 <= n < |ids| ==> results[n] == s.responses[ids[n]]
  {
    NothingMissing(s, ids);
    assert Joins(s, DoWait(s, ids), Finished(ids, RecordedInOrder(s, ids)));
  }

  /** The waiter has what is recorded, and holds a future of each of the other ids. */
  ghost predicate Splits(s: State, w: Waiter, ids: seq<string>) {
    && w.Waiting? && w.ids == ids
    && (forall t :: t in w.held <==> t in ids && t !in s.responses)
    && (forall t :: t in w.got <==> t in ids && t in s.responses)
    && (forall t :: t in w.got ==> w.got[t] == s.responses[t])
  }

  /** Any other wait suspends on futures of exactly the ids that are not recorded. */
  lemma WaitSuspends(s: State, ids: seq<string>)
    requires Typed(s) && !AllRecorded(s, ids)
    ensures exists w :: Joins(s, DoWait(s, ids), w) && Splits(s, w, ids)
  {
    NothingMissing(s, ids);
    var w := DoWait(s, ids).waiters[|s.waiters|];
    assert Joins(s, DoWait(s, ids), w) && Splits(s, w, ids);
  }

  /** A waiter that resumes with every future resolved returns, each id with its recorded response. */
  lemma ResumedWaiterReturns(s: State, k: nat)
    requires Inv(s) && k < |s.waiters| && s.waiters[k].Waiting? && AllResolved(s, s.waiters[k])
    ensures var w, w' := s.waiters[k], DoWaiterResumes(s, k).waiters[k];
            && w'.Finished? && w'.ids == w.ids && |w'.results| == |w.ids|
            && forall n :: 0 <= n < |w.ids| ==> w.ids[n] in s.responses && w'.results[n] == s.responses[w.ids[n]]
  {
    var w := s.waiters[k];
    assert WaiterOk(s, w);
    forall n | 0 <= n < |w.ids| ensures w.ids[n] in s.responses && Gathered(s, w)[n] == s.responses[w.ids[n]] {
      if w.ids[n] in w.held { assert SlotOk(s, w.held[w.ids[n]], s.slots[w.held[w.ids[n]]]); }
    }
  }

  /** Waiters `k` and `j` wait for the same open future, of task `t`. */
  ghost predicate Share(s: State, k: nat, j: nat, t: string) {
    && k < |s.waiters| && s.waiters[k].Waiting? && j < |s.waiters| && j != k && s.waiters[j].Waiting?
    && t in s.waiters[k].held && t in s.waiters[j].held && s.waiters[k].held[t] == s.waiters[j].held[t]
    && s.waiters[k].held[t] < |s.slots| && s.slots[s.waiters[k].held[t]].state.Open?
  }

  ghost predicate Holds(held: map<string, nat>, f: nat) { exists t :: t in held && held[t] == f }

  /** Exactly the open futures in `held` are cancelled. */
  ghost predicate Cancels(slots: seq<Slot>, held: map<string, nat>, after: seq<Slot>) {
    |after| == |slots| && forall f :: 0 <= f < |slots| ==>
      after[f] == if slots[f].state.Open? && Holds(held, f) then Slot(slots[f].task, Cancelled) else slots[f]
  }

  lemma TimeoutCancels(s: State, k: nat)
    requires Typed(s) && k < |s.waiters| && s.waiters[k].Waiting?
    ensures var r := DoWaiterTimesOut(s, k);
            r.waiters == s.waiters[k := TimedOut] && Cancels(s.slots, s.waiters[k].held, r.slots)
  {
    var held := s.waiters[k].held;
    forall f: nat ensures f in held.Values <==> Holds(held, f) {
      if Holds(held, f) { var t :| t in held && held[t] == f; }
    }
  }

  lemma CancelledResumes(r: State, j: nat, t: string)
    requires Typed(r) && j < |r.waiters| && r.waiters[j].Waiting? && t in r.waiters[j].held
    requires r.slots[r.waiters[j].held[t]].state.Cancelled?
    ensures Enabled(r, WaiterResumes(j)) && DoWaiterResumes(r, j).waiters[j].WaitCancelled?
  {
    assert SomeCancelled(r, r.waiters[j]);
  }

  /** A timeout cancels exactly the open futures its waiter holds, so that any other waiter that
      shares one can resume, and is cancelled too. */
  lemma TimeoutCancelsShared(s: State, k: nat, j: nat, t: string)
    requires Typed(s) && Share(s, k, j, t)
    ensures var r := DoWaiterTimesOut(s, k);
            && r.waiters == s.waiters[k := TimedOut] && Cancels(s.slots, s.waiters[k].held, r.slots)
            && Enabled(r, WaiterResumes(j)) && DoWaiterResumes(r, j).waiters[j].WaitCancelled?
  {
    TimeoutCancels(s, k);
    assert Holds(s.waiters[k].held, s.waiters[k].held[t]);
    CancelledResumes(DoWaiterTimesOut(s, k), j, t);
  }
}
