/** The asynchronous master as a labelled transition system.

    One step is one stretch of coroutine code between two suspension points, so a run of
    steps is an interleaving the event loop may produce. The worker processes, the network
    and the clock only choose which enabled step comes next. */
module Protocol {
  import opened Entities
  import opened RequestIds

  /** A `send_task` future on a link. */
  datatype Future = Unresolved | GotReply(message: Message) | GotError

  /** Where a connection's handler is suspended. */
  datatype Phase = Reading | AckingRegister(worker: string) | AckingShutdown | Exited

  datatype Link = Link(owner: Option<string>, phase: Phase, pending: map<string, Future>)

  /** Where a `dispatch_assigned_task` coroutine is. */
  datatype Dispatch =
    | Spawned(task: string)
    | Awaiting(task: string, worker: string, attempt: nat, link: nat, sent: bool)
    | Closing(task: string, worker: string, attempt: nat, response: Response)
    | Returned(task: string, attempt: nat, response: Response)
    | RaisedAtStart(task: string)
    | RaisedInFlight(task: string, attempt: nat)
    | RaisedAtComplete(task: string, attempt: nat)
    | RaisedAtClose(task: string, attempt: nat)
  {
    predicate Started() { !Spawned? && !RaisedAtStart? }
    predicate Holds(t: string, w: string, a: nat) { Awaiting? && task == t && worker == w && attempt == a }
  }

  /** A future of the response registry; `task` is the id it was created for. */
  datatype SlotState = Open | Resolved(response: Response) | Cancelled
  datatype Slot = Slot(task: string, state: SlotState)

  /** A `wait_for_tasks` call: `held` are the futures it awaits, `got` what it found recorded. */
  datatype Waiter =
    | Waiting(ids: seq<string>, got: map<string, Response>, held: map<string, nat>)
    | Finished(ids: seq<string>, results: seq<Response>)
    | TimedOut
    | WaitCancelled

  datatype State = State(
    tasks: map<string, Task>,
    workers: map<string, Worker>,
    links: seq<Link>,
    connections: map<string, nat>,
    dispatches: seq<Dispatch>,
    responses: map<string, Response>,
    slots: seq<Slot>,
    slotOf: map<string, nat>,
    waiters: seq<Waiter>)

  const Init := State(map[], map[], [], map[], [], map[], [], map[], [])

  /** Every index stored in the state points into its table. */
  ghost predicate Typed(s: State) {
    && (forall w :: w in s.connections ==> s.connections[w] < |s.links|)
    && (forall i :: 0 <= i < |s.dispatches| ==> s.dispatches[i].task in s.tasks)
    && (forall i :: 0 <= i < |s.dispatches| && s.dispatches[i].Awaiting? ==> s.dispatches[i].link < |s.links|)
    && (forall t :: t in s.slotOf ==> s.slotOf[t] < |s.slots|)
    && (forall k, t :: 0 <= k < |s.waiters| && s.waiters[k].Waiting? && t in s.waiters[k].held ==>
          s.waiters[k].held[t] < |s.slots|)
  }

  datatype Step =
    | SubmitTask(id: string, taskType: string, payload: Payload)
    | AssignTask(id: string, worker: string)
    | StartDispatch(index: nat)
    | SendDone(index: nat)
    | SendFails(index: nat)
    | SendRaises(index: nat)
    | ResumeWithReply(index: nat)
    | ResumeWithError(index: nat)
    | CloseDone(index: nat)
    | CloseFails(index: nat)
    | Accept
    | Receive(link: nat, message: Message)
    | FinishAck(link: nat)
    | Disconnect(link: nat)
    | HeartbeatTimeout(stale: set<string>)
    | WaitForTasks(ids: seq<string>)
    | WaiterResumes(waiter: nat)
    | WaiterTimesOut(waiter: nat)

  // ----- Scheduler and worker registry -----

  /** `requeue_tasks_for_worker` on one task. */
  function RequeueTask(task: Task): Task {
    if task.attempt >= MAX_TASK_ATTEMPTS
    then task.(status := TaskFailed, worker := None)
    else task.(status := Pending, worker := None)
  }

  predicate OwnedByAny(task: Task, ws: set<string>) {
    task.InFlight() && task.worker.Some? && task.worker.value in ws
  }

  function Requeue(tasks: map<string, Task>, ws: set<string>): map<string, Task> {
    map t | t in tasks :: if OwnedByAny(tasks[t], ws) then RequeueTask(tasks[t]) else tasks[t]
  }

  function FailWorkers(workers: map<string, Worker>, ws: set<string>): map<string, Worker> {
    map w | w in workers :: if w in ws then workers[w].(status := WorkerFailed) else workers[w]
  }

  /** `_release_worker`: a draining worker is not handed back. */
  function Release(workers: map<string, Worker>, w: string): map<string, Worker> {
    if w in workers && !workers[w].status.Draining? then workers[w := workers[w].(status := Idle)] else workers
  }

  predicate Replaceable(status: WorkerStatus) { status.WorkerFailed? || status.Stopped? }

  predicate RegistrationValid(w: string, host: string, port: int) {
    |w| > 0 && |host| > 0 && 0 < port < 65536
  }

  predicate RegistrationAccepted(workers: map<string, Worker>, w: string, host: string, port: int) {
    RegistrationValid(w, host, port) && (w in workers ==> Replaceable(workers[w].status))
  }

  function RegisterWorker(workers: map<string, Worker>, w: string, host: string, port: int): map<string, Worker> {
    workers[w := Worker(host, port, Idle, if w in workers then workers[w].generation + 1 else 1)]
  }

  /** `handle_shutdown`: only a live worker starts draining. */
  function DrainWorker(workers: map<string, Worker>, w: string): map<string, Worker> {
    if w in workers && (workers[w].status.Registered? || workers[w].status.Idle? || workers[w].status.Busy?)
    then workers[w := workers[w].(status := Draining)]
    else workers
  }

  // ----- Response registry -----

  function ResolveSlot(slots: seq<Slot>, slotOf: map<string, nat>, t: string, r: Response): seq<Slot>
    requires t in slotOf ==> slotOf[t] < |slots|
  {
    if t in slotOf && slots[slotOf[t]].state.Open?
    then slots[slotOf[t] := slots[slotOf[t]].(state := Resolved(r))]
    else slots
  }

  /** `_record_task_response`. */
  function Record(s: State, t: string, r: Response): State
    requires t in s.slotOf ==> s.slotOf[t] < |s.slots|
  {
    s.(responses := s.responses[t := r], slots := ResolveSlot(s.slots, s.slotOf, t, r))
  }

  function RecordIfTerminal(s: State, t: string, r: Response): State
    requires t in s.tasks && (t in s.slotOf ==> s.slotOf[t] < |s.slots|)
  {
    if s.tasks[t].Terminal() then Record(s, t, r) else s
  }

  // ----- Connections -----

  function FailPending(pending: map<string, Future>): map<string, Future> {
    map k | k in pending :: if pending[k].Unresolved? then GotError else pending[k]
  }

  /** The handler's `finally` block. */
  function Exit(s: State, l: nat): (r: State)
    requires l < |s.links| && Typed(s)
    ensures Typed(r)
    ensures r == s.(workers := r.workers, links := r.links, connections := r.connections)
  {
    var link := s.links[l];
    var current := link.owner.Some? && link.owner.value in s.connections && s.connections[link.owner.value] == l;
    s.(links := s.links[l := link.(phase := Exited, pending := FailPending(link.pending))],
       connections := if current then s.connections - {link.owner.value} else s.connections,
       workers :=
         if current && link.owner.value in s.workers && s.workers[link.owner.value].status.Draining?
            && link.pending == map[]
         then s.workers[link.owner.value := s.workers[link.owner.value].(status := Stopped)]
         else s.workers)
  }

  predicate Superseded(s: State, l: nat)
    requires l < |s.links|
  {
    var owner := s.links[l].owner;
    owner.Some? && !(owner.value in s.connections && s.connections[owner.value] == l)
  }

  /** `rpc_handler.handle_request` for a message that resolved no future. */
  function HandleRequest(s: State, l: nat, body: Body): (r: State)
    requires l < |s.links| && Typed(s)
    ensures Typed(r)
    ensures r == s.(workers := r.workers, links := r.links)
  {
    match body
    case Register(w, host, port) =>
      if RegistrationAccepted(s.workers, w, host, port)
      then s.(workers := RegisterWorker(s.workers, w, host, port),
              links := s.links[l := s.links[l].(phase := AckingRegister(w))])
      else s
    case Shutdown(w) =>
      if w in s.workers
      then s.(workers := DrainWorker(s.workers, w),
              links := s.links[l := s.links[l].(phase := AckingShutdown)])
      else s
    case _ => s
  }

  function DoReceive(s: State, l: nat, m: Message): (r: State)
    requires l < |s.links| && Typed(s)
    ensures Typed(r)
    ensures r == s.(workers := r.workers, links := r.links, connections := r.connections)
  {
    var link := s.links[l];
    if Superseded(s, l) then Exit(s, l)
    else if m.requestId in link.pending && link.pending[m.requestId].Unresolved? then
      s.(links := s.links[l := link.(pending := link.pending[m.requestId := GotReply(m)])])
    else HandleRequest(s, l, m.body)
  }

  /** What the handler does once its acknowledgement is written. */
  function DoFinishAck(s: State, l: nat): (r: State)
    requires l < |s.links| && Typed(s)
    ensures Typed(r)
    ensures r == s.(workers := r.workers, links := r.links, connections := r.connections)
  {
    var link := s.links[l];
    match link.phase
    case AckingRegister(w) =>
      s.(links := s.links[l := link.(phase := Reading, owner := Some(w))],
         connections := s.connections[w := l])
    case AckingShutdown =>
      if link.owner.Some? && link.pending == map[] then Exit(s, l)
      else s.(links := s.links[l := link.(phase := Reading)])
    case _ => s
  }

  // ----- Dispatch -----

  /** Workers are lost and their tasks requeued: one by `mark_worker_failed_and_requeue`, any
      number by the failure monitor. */
  function RequeueState(s: State, ws: set<string>): State {
    s.(workers := FailWorkers(s.workers, ws), tasks := Requeue(s.tasks, ws))
  }

  /** The dispatch records its response if its task is decided, and returns it. */
  function ReturnWith(s: State, i: nat, t: string, a: nat, response: Response): (r: State)
    requires i < |s.dispatches| && t in s.tasks && Typed(s)
    ensures Typed(r)
  {
    RecordIfTerminal(s, t, response).(dispatches := s.dispatches[i := Returned(t, a, response)])
  }

  /** The worker is lost, and the dispatch returns the error that stands in for its reply. */
  function ReturnUnreachable(s: State, i: nat, t: string, w: string, a: nat): (r: State)
    requires i < |s.dispatches| && t in s.tasks && Typed(s)
    ensures Typed(r)
  {
    ReturnWith(RequeueState(s, {w}), i, t, a, Unreachable(t, a))
  }

  /** The first stretch of `dispatch_assigned_task`, up to its first suspension. */
  function DoStart(s: State, i: nat): (r: State)
    requires i < |s.dispatches| && s.dispatches[i].Spawned? && Typed(s)
    ensures Typed(r)
  {
    var t := s.dispatches[i].task;
    var task := s.tasks[t];
    if !task.status.Assigned? || task.worker.None? then
      s.(dispatches := s.dispatches[i := RaisedAtStart(t)])
    else
      var w, a := task.worker.value, task.attempt;
      var running := s.(tasks := s.tasks[t := task.(status := Running)]);
      if w in s.connections then
        var l := s.connections[w];
        running.(dispatches := s.dispatches[i := Awaiting(t, w, a, l, false)],
                 links := s.links[l := s.links[l].(pending := s.links[l].pending[AttemptRequestId(t, a) := Unresolved])])
      else
        ReturnUnreachable(running, i, t, w, a)
  }

  /** `send_task`'s own `finally`. */
  function PopPending(s: State, i: nat): (r: State)
    requires i < |s.dispatches| && s.dispatches[i].Awaiting? && Typed(s)
    ensures Typed(r)
  {
    var d := s.dispatches[i];
    var link := s.links[d.link];
    s.(links := s.links[d.link := link.(pending := link.pending - {AttemptRequestId(d.task, d.attempt)})])
  }

  predicate Current(s: State, d: Dispatch)
    requires d.Awaiting?
  {
    d.task in s.tasks && s.tasks[d.task].IsAttempt(d.worker, d.attempt)
  }

  /** Resuming after a connection or encoding error. */
  function DoResumeError(s: State, i: nat): (r: State)
    requires i < |s.dispatches| && s.dispatches[i].Awaiting? && Typed(s)
    ensures Typed(r) && r.links == PopPending(s, i).links && r.connections == s.connections
  {
    var d := s.dispatches[i];
    var response := Unreachable(d.task, d.attempt);
    var popped := PopPending(s, i);
    var lost := if Current(s, d)
                then RecordIfTerminal(RequeueState(popped, {d.worker}), d.task, response)
                else popped;
    lost.(dispatches := s.dispatches[i := Returned(d.task, d.attempt, response)])
  }

  /** `complete_task` or `fail_task`. */
  function Decide(s: State, t: string, w: string, ok: bool): (r: State)
    requires t in s.tasks && Typed(s)
    ensures Typed(r)
  {
    s.(tasks := s.tasks[t := s.tasks[t].(status := if ok then Completed else TaskFailed)], workers := Release(s.workers, w))
  }

  /** The task is decided, then the draining check, for a current attempt. */
  function FinishTask(s: State, i: nat, ok: bool, response: Response): (r: State)
    requires i < |s.dispatches| && s.dispatches[i].Awaiting? && Typed(s)
    ensures Typed(r) && r.links == s.links && r.connections == s.connections
  {
    var d := s.dispatches[i];
    var task := s.tasks[d.task];
    if ok && !task.InFlight() then
      s.(dispatches := s.dispatches[i := RaisedAtComplete(d.task, d.attempt)])
    else
      var done := Decide(s, d.task, d.worker, ok);
      if d.worker in done.workers && done.workers[d.worker].status.Draining? && d.worker in s.connections then
        done.(dispatches := s.dispatches[i := Closing(d.task, d.worker, d.attempt, response)])
      else
        ReturnWith(done, i, d.task, d.attempt, response)
  }

  /** An error nothing catches ends the dispatch: the send is gone, the task is left as it is. */
  function Strand(s: State, i: nat): (r: State)
    requires i < |s.dispatches| && s.dispatches[i].Awaiting? && Typed(s)
    ensures Typed(r)
  {
    PopPending(s, i).(dispatches := s.dispatches[i := RaisedInFlight(s.dispatches[i].task, s.dispatches[i].attempt)])
  }

  predicate Succeeded(m: Message) { m.body.TaskResult? && m.body.outcome.Success? }

  function DoResumeReply(s: State, i: nat, m: Message): (r: State)
    requires i < |s.dispatches| && s.dispatches[i].Awaiting? && Typed(s)
    ensures Typed(r) && r.links == PopPending(s, i).links && r.connections == s.connections
  {
    var d := s.dispatches[i];
    var popped := PopPending(s, i);
    if Current(s, d) then
      if m.body.StatuslessResult? then Strand(s, i) else FinishTask(popped, i, Succeeded(m), WorkerReply(m))
    else popped.(dispatches := s.dispatches[i := Returned(d.task, d.attempt, WorkerReply(m))])
  }

  function DoCloseDone(s: State, i: nat): (r: State)
    requires i < |s.dispatches| && s.dispatches[i].Closing? && Typed(s)
    ensures Typed(r)
  {
    var d := s.dispatches[i];
    ReturnWith(s, i, d.task, d.attempt, d.response)
  }

  // ----- Waiters -----

  /** Gives every id of `ids` an open slot, reusing the registered one when it is still open. */
  function OpenSlots(slots: seq<Slot>, slotOf: map<string, nat>, ids: seq<string>): (r: (seq<Slot>, map<string, nat>))
    requires forall t :: t in slotOf ==> slotOf[t] < |slots|
    ensures slots <= r.0 && (forall t :: t in r.1 ==> r.1[t] < |r.0|)
    ensures slotOf.Keys <= r.1.Keys && (forall t :: t in ids ==> t in r.1)
    decreases |ids|
  {
    if ids == [] then (slots, slotOf)
    else
      var t := ids[0];
      if t in slotOf && slots[slotOf[t]].state.Open?
      then OpenSlots(slots, slotOf, ids[1..])
      else OpenSlots(slots + [Slot(t, Open)], slotOf[t := |slots|], ids[1..])
  }

  function Unrecorded(s: State, ids: seq<string>): (r: seq<string>)
    ensures forall t :: t in r <==> t in ids && t !in s.responses
  {
    if ids == [] then []
    else
      var last := |ids| - 1;
      Unrecorded(s, ids[..last]) + if ids[last] in s.responses then [] else [ids[last]]
  }

  function Recorded(s: State, ids: seq<string>): map<string, Response> {
    map t | t in ids && t in s.responses :: s.responses[t]
  }

  function RecordedInOrder(s: State, ids: seq<string>): seq<Response>
    requires forall t :: t in ids ==> t in s.responses
  {
    seq(|ids|, n requires 0 <= n < |ids| => s.responses[ids[n]])
  }

  function Suspend(s: State, ids: seq<string>, missing: seq<string>): (r: State)
    requires Typed(s)
    ensures Typed(r)
    ensures r == s.(slots := r.slots, slotOf := r.slotOf, waiters := r.waiters)
  {
    var table := OpenSlots(s.slots, s.slotOf, missing);
    var waiter := Waiting(ids, Recorded(s, ids), map t | t in missing :: table.1[t]);
    s.(slots := table.0, slotOf := table.1, waiters := s.waiters + [waiter])
  }

  /** `wait_for_tasks` up to its suspension, or to its return when everything is recorded. */
  function DoWait(s: State, ids: seq<string>): (r: State)
    requires Typed(s)
    ensures Typed(r)
    ensures r == s.(slots := r.slots, slotOf := r.slotOf, waiters := r.waiters)
  {
    var missing := Unrecorded(s, ids);
    if missing != [] then Suspend(s, ids, missing)
    else
      assert forall t :: t in ids ==> t in s.responses by { assert forall t :: t !in missing; }
      s.(waiters := s.waiters + [Finished(ids, RecordedInOrder(s, ids))])
  }

  predicate AllResolved(s: State, w: Waiter)
    requires w.Waiting?
  {
    && (forall t :: t in w.held ==> w.held[t] < |s.slots| && s.slots[w.held[t]].state.Resolved?)
    && (forall n :: 0 <= n < |w.ids| ==> w.ids[n] in w.got || w.ids[n] in w.held)
  }

  predicate SomeCancelled(s: State, w: Waiter)
    requires w.Waiting?
  {
    exists t :: t in w.held && w.held[t] < |s.slots| && s.slots[w.held[t]].state.Cancelled?
  }

  function Gathered(s: State, w: Waiter): seq<Response>
    requires w.Waiting? && AllResolved(s, w)
  {
    seq(|w.ids|, n requires 0 <= n < |w.ids| =>
      if w.ids[n] in w.held then s.slots[w.held[w.ids[n]]].state.response else w.got[w.ids[n]])
  }

  function DoWaiterResumes(s: State, k: nat): (r: State)
    requires k < |s.waiters| && s.waiters[k].Waiting? && Typed(s)
    requires AllResolved(s, s.waiters[k]) || SomeCancelled(s, s.waiters[k])
    ensures Typed(r)
    ensures r == s.(slots := r.slots, slotOf := r.slotOf, waiters := r.waiters)
  {
    var w := s.waiters[k];
    s.(waiters := s.waiters[k :=
         if AllResolved(s, w) then Finished(w.ids, Gathered(s, w)) else WaitCancelled])
  }

  /** A timeout cancels the gathered futures, which other waiters may share. */
  function DoWaiterTimesOut(s: State, k: nat): (r: State)
    requires k < |s.waiters| && s.waiters[k].Waiting? && Typed(s)
    ensures Typed(r)
    ensures r == s.(slots := r.slots, slotOf := r.slotOf, waiters := r.waiters)
  {
    var w := s.waiters[k];
    s.(slots := seq(|s.slots|, f requires 0 <= f < |s.slots| =>
         if s.slots[f].state.Open? && f in w.held.Values then s.slots[f].(state := Cancelled) else s.slots[f]),
       waiters := s.waiters[k := TimedOut])
  }

  // ----- Steps and runs -----

  predicate Distinct(ids: seq<string>) {
    forall i, j :: 0 <= i < j < |ids| ==> ids[i] != ids[j]
  }

  /** The reply or error `send_task` finds when its future is done. */
  predicate FutureIs(s: State, i: nat, f: Future) {
    && i < |s.dispatches| && s.dispatches[i].Awaiting? && s.dispatches[i].link < |s.links|
    && var pending := s.links[s.dispatches[i].link].pending;
       var id := AttemptRequestId(s.dispatches[i].task, s.dispatches[i].attempt);
       id in pending && pending[id] == f
  }

  predicate HasReply(s: State, i: nat) {
    && i < |s.dispatches| && s.dispatches[i].Awaiting? && s.dispatches[i].link < |s.links|
    && var pending := s.links[s.dispatches[i].link].pending;
       var id := AttemptRequestId(s.dispatches[i].task, s.dispatches[i].attempt);
       id in pending && pending[id].GotReply?
  }

  function ReplyOf(s: State, i: nat): Message
    requires HasReply(s, i)
  {
    s.links[s.dispatches[i].link].pending[AttemptRequestId(s.dispatches[i].task, s.dispatches[i].attempt)].message
  }

  ghost predicate Enabled(s: State, step: Step) {
    match step
    case SubmitTask(_, _, _) => true
    case AssignTask(t, w) => t in s.tasks && s.tasks[t].status.Pending? && w in s.workers && s.workers[w].status.Idle?
    case StartDispatch(i) => i < |s.dispatches| && s.dispatches[i].Spawned?
    case SendDone(i) => i < |s.dispatches| && s.dispatches[i].Awaiting? && !s.dispatches[i].sent
    case SendFails(i) => i < |s.dispatches| && s.dispatches[i].Awaiting? && !s.dispatches[i].sent
    case SendRaises(i) => i < |s.dispatches| && s.dispatches[i].Awaiting? && !s.dispatches[i].sent
    case ResumeWithReply(i) => HasReply(s, i) && s.dispatches[i].sent
    case ResumeWithError(i) => FutureIs(s, i, GotError) && s.dispatches[i].sent
    case CloseDone(i) => i < |s.dispatches| && s.dispatches[i].Closing?
    case CloseFails(i) => i < |s.dispatches| && s.dispatches[i].Closing?
    case Accept => true
    case Receive(l, _) => l < |s.links| && s.links[l].phase.Reading?
    case FinishAck(l) => l < |s.links| && (s.links[l].phase.AckingRegister? || s.links[l].phase.AckingShutdown?)
    case Disconnect(l) => l < |s.links| && !s.links[l].phase.Exited?
    case HeartbeatTimeout(stale) => forall w :: w in stale ==> w in s.workers && !s.workers[w].status.Stopped?
    case WaitForTasks(ids) => Distinct(ids)
    case WaiterResumes(k) =>
      k < |s.waiters| && s.waiters[k].Waiting? && (AllResolved(s, s.waiters[k]) || SomeCancelled(s, s.waiters[k]))
    case WaiterTimesOut(k) => k < |s.waiters| && s.waiters[k].Waiting?
  }

  function DoSubmit(s: State, id: string, taskType: string, payload: Payload): State {
    if |id| == 0 || |taskType| == 0 || id in s.tasks then s
    else s.(tasks := s.tasks[id := Task(taskType, payload, Pending, None, 0)])
  }

  function GiveTask(tasks: map<string, Task>, t: string, w: string): map<string, Task>
    requires t in tasks
  {
    tasks[t := tasks[t].(status := Assigned, worker := Some(w), attempt := tasks[t].attempt + 1)]
  }

  function DoAssign(s: State, t: string, w: string): State
    requires t in s.tasks && w in s.workers
  {
    s.(tasks := GiveTask(s.tasks, t, w),
       workers := s.workers[w := s.workers[w].(status := Busy)],
       dispatches := s.dispatches + [Spawned(t)])
  }

  ghost function Apply(s: State, step: Step): (r: State)
    requires Typed(s) && Enabled(s, step)
    ensures Typed(r)
  {
    match step
    case SubmitTask(t, ty, p) => DoSubmit(s, t, ty, p)
    case AssignTask(t, w) => DoAssign(s, t, w)
    case StartDispatch(i) => DoStart(s, i)
    case SendDone(i) => s.(dispatches := s.dispatches[i := s.dispatches[i].(sent := true)])
    case SendFails(i) => DoResumeError(s, i)
    case SendRaises(i) => Strand(s, i)
    case ResumeWithReply(i) => DoResumeReply(s, i, ReplyOf(s, i))
    case ResumeWithError(i) => DoResumeError(s, i)
    case CloseDone(i) => DoCloseDone(s, i)
    case CloseFails(i) =>
      s.(dispatches := s.dispatches[i := RaisedAtClose(s.dispatches[i].task, s.dispatches[i].attempt)])
    case Accept => s.(links := s.links + [Link(None, Reading, map[])])
    case Receive(l, m) => DoReceive(s, l, m)
    case FinishAck(l) => DoFinishAck(s, l)
    case Disconnect(l) => Exit(s, l)
    case HeartbeatTimeout(stale) => RequeueState(s, stale)
    case WaitForTasks(ids) => DoWait(s, ids)
    case WaiterResumes(k) => DoWaiterResumes(s, k)
    case WaiterTimesOut(k) => DoWaiterTimesOut(s, k)
  }
}
