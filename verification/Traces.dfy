/** Runs under environment assumptions, and what holds along every one of them. */
module Traces {
  import opened Entities
  import opened RequestIds
  import opened Protocol
  import opened Invariant
  import opened Runs
  import opened Evolution

  /** What running a task's payload yields; the same on every worker and every attempt. */
  type Executor = (string, Payload) -> Outcome

  /** Assumptions a run may be asked to obey; `ANY` asks for nothing. */
  datatype Env = Env(
    oneIdPerLink: bool,
    calm: bool,
    safeInstalls: bool,
    freshAcks: bool,
    sound: bool,
    honest: Option<Executor>)

  const ANY := Env(false, false, false, false, false, None)

  /** A connection does not install a second worker id while it is current for a first one. */
  ghost predicate OneIdPerLink(s: State, step: Step) {
    step.FinishAck? && step.link < |s.links| && s.links[step.link].phase.AckingRegister? ==>
      forall v :: v in s.connections && s.connections[v] == step.link ==> v == s.links[step.link].phase.worker
  }

  ghost predicate OwnsNone(s: State, w: string) {
    forall t :: t in s.tasks ==> !s.tasks[t].OwnedBy(w)
  }

  /** The message reaches `handle_request`: its link is current and it resolves no future. */
  predicate Handled(s: State, l: nat, m: Message)
    requires l < |s.links|
  {
    !Superseded(s, l) && !(m.requestId in s.links[l].pending && s.links[l].pending[m.requestId].Unresolved?)
  }

  /** No current send to `w` is suspended on another link, and `w` is not stopped with a task in flight. */
  ghost predicate InstallSafe(s: State, l: nat, w: string) {
    && (forall i :: 0 <= i < |s.dispatches| && s.dispatches[i].Awaiting? && Current(s, s.dispatches[i]) ==>
          (s.dispatches[i].worker == w ==> s.dispatches[i].link == l))
    && (w in s.workers && s.workers[w].status.Stopped? ==> OwnsNone(s, w))
  }

  /** A worker id is not registered again while a task in flight still names it. */
  ghost predicate Calm(s: State, step: Step) {
    step.Receive? && step.link < |s.links| && Handled(s, step.link, step.message) && step.message.body.Register? ==>
      var body := step.message.body;
      RegistrationAccepted(s.workers, body.workerId, body.host, body.port) ==> OwnsNone(s, body.workerId)
  }

  /** A connection is not installed over one that a current send is suspended on, nor for a stopped
      worker with a task in flight. */
  ghost predicate SafeInstall(s: State, step: Step) {
    step.FinishAck? && step.link < |s.links| && s.links[step.link].phase.AckingRegister? ==>
      InstallSafe(s, step.link, s.links[step.link].phase.worker)
  }

  /** A handler whose connection has been replaced is about to install it again. */
  predicate StaleAck(s: State, step: Step) {
    step.FinishAck? && step.link < |s.links| && s.links[step.link].phase.AckingRegister? && Superseded(s, step.link)
  }

  /** An uncaught error ends the dispatch of a current attempt: the send raises something that is
      neither a connection nor a protocol error, or the reply is a TASK_RESULT without a status. */
  predicate Strands(s: State, step: Step) {
    match step
    case SendRaises(i) => i < |s.dispatches| && s.dispatches[i].Awaiting? && Current(s, s.dispatches[i])
    case ResumeWithReply(i) => HasReply(s, i) && Current(s, s.dispatches[i]) && ReplyOf(s, i).body.StatuslessResult?
    case _ => false
  }

  /** A reply to an attempt echoes that attempt and carries what its payload yields. */
  ghost predicate HonestMessage(s: State, m: Message, exec: Executor) {
    forall t, a :: m.requestId == AttemptRequestId(t, a) && t in s.tasks ==>
      m.body == TaskResult(t, a, exec(s.tasks[t].taskType, s.tasks[t].payload))
  }

  ghost predicate Obeys(s: State, step: Step, env: Env) {
    && (env.oneIdPerLink ==> OneIdPerLink(s, step))
    && (env.calm ==> Calm(s, step))
    && (env.safeInstalls ==> SafeInstall(s, step))
    && (env.freshAcks ==> !StaleAck(s, step))
    && (env.sound ==> !Strands(s, step))
    && (env.honest.Some? && step.Receive? ==> HonestMessage(s, step.message, env.honest.value))
  }

  ghost predicate IsRun(s: State, steps: seq<Step>, env: Env)
    requires Typed(s)
    decreases |steps|
  {
    steps == [] || (Enabled(s, steps[0]) && Obeys(s, steps[0], env) && IsRun(Apply(s, steps[0]), steps[1..], env))
  }

  ghost function Exec(s: State, steps: seq<Step>, env: Env): (r: State)
    requires Typed(s) && IsRun(s, steps, env)
    ensures Typed(r)
    decreases |steps|
  {
    if steps == [] then s else Exec(Apply(s, steps[0]), steps[1..], env)
  }

  lemma {:induction false} ExtendRun(s: State, steps: seq<Step>, step: Step, env: Env)
    requires Typed(s) && IsRun(s, steps, env)
    requires Enabled(Exec(s, steps, env), step) && Obeys(Exec(s, steps, env), step, env)
    ensures IsRun(s, steps + [step], env)
    ensures Exec(s, steps + [step], env) == Apply(Exec(s, steps, env), step)
    decreases |steps|
  {
    if steps == [] {
      assert steps + [step] == [step];
    } else {
      ExtendRun(Apply(s, steps[0]), steps[1..], step, env);
      assert (steps + [step])[1..] == steps[1..] + [step];
    }
  }

  /** The invariant holds after any run. */
  lemma {:induction false} RunInv(s: State, steps: seq<Step>, env: Env)
    requires Inv(s) && IsRun(s, steps, env)
    ensures Inv(Exec(s, steps, env))
    decreases |steps|
  {
    if steps != [] {
      StepInv(s, steps[0]);
      RunInv(Apply(s, steps[0]), steps[1..], env);
    }
  }

  // ----- Along a run -----

  /** What time does to a task: its job is fixed, attempts only grow, an outcome is final. */
  ghost predicate TaskLater(k: Task, k': Task) {
    && k'.taskType == k.taskType && k'.payload == k.payload
    && k.attempt <= k'.attempt
    && (k.Terminal() ==> k' == k)
  }

  ghost predicate Later(s: State, r: State) {
    && (forall t :: t in s.tasks ==> t in r.tasks && TaskLater(s.tasks[t], r.tasks[t]))
    && RegistryGrows(s, r)
  }

  lemma MovesLater(s: State, r: State, chosen: Option<string>)
    requires Moves(s, r, chosen)
    ensures Later(s, r)
  {
    forall t | t in s.tasks ensures TaskLater(s.tasks[t], r.tasks[t]) {
      if chosen != Some(t) { assert TaskAdvances(s.tasks[t], r.tasks[t]); }
    }
  }

  lemma LaterTransitive(s: State, q: State, r: State)
    requires Later(s, q) && Later(q, r)
    ensures Later(s, r)
  {
  }

  /** Over any run no task disappears, COMPLETED and FAILED are absorbing, attempts never
      go back, and a recorded response is never replaced. */
  lemma {:induction false} RunLater(s: State, steps: seq<Step>, env: Env)
    requires Inv(s) && IsRun(s, steps, env)
    ensures Later(s, Exec(s, steps, env))
    decreases |steps|
  {
    if steps != [] {
      var q := Apply(s, steps[0]);
      StepInv(s, steps[0]);
      StepMoves(s, steps[0]);
      MovesLater(s, q, AssignedBy(steps[0]));
      RunLater(q, steps[1..], env);
      LaterTransitive(s, q, Exec(q, steps[1..], env));
    }
  }
}
