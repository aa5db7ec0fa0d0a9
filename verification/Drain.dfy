/** `drain_tasks_for`: rounds of assigning a batch, dispatching it and gathering its responses. */
module Drain {
  import opened Entities
  import opened Protocol
  import opened Invariant
  import opened DispatchSteps
  import opened Runs
  import opened Evolution
  import opened Traces
  import opened Links
  import opened Endings

  // ----- One dispatch along a run -----

  /** A dispatch keeps its task, the attempt it captured and what it returned; what it captures
      is no older than `least`. */
  ghost predicate DispatchAdvances(d: Dispatch, d': Dispatch, least: nat) {
    && d'.task == d.task
    && (d.Started() ==> d'.Started() && d'.attempt == d.attempt)
    && (!d.Started() && d'.Started() ==> least <= d'.attempt)
    && (d.Returned? ==> d' == d)
  }

  ghost predicate DispatchesAdvance(s: State, r: State) {
    && |s.dispatches| <= |r.dispatches|
    && forall i :: 0 <= i < |s.dispatches| ==>
         DispatchAdvances(s.dispatches[i], r.dispatches[i], AttemptOf(s, s.dispatches[i].task))
  }

  lemma ReplaceAdvances(s: State, r: State, i: nat, e: Dispatch)
    requires Replaces(s, r, i, e) && DispatchAdvances(s.dispatches[i], e, AttemptOf(s, s.dispatches[i].task))
    ensures DispatchesAdvance(s, r)
  {
  }

  lemma StartAdvances(s: State, i: nat)
    requires Typed(s) && i < |s.dispatches| && s.dispatches[i].Spawned?
    ensures DispatchesAdvance(s, DoStart(s, i))
  {
    ReplaceAdvances(s, DoStart(s, i), i, DoStart(s, i).dispatches[i]);
  }

  lemma ErrorAdvances(s: State, i: nat)
    requires Typed(s) && i < |s.dispatches| && s.dispatches[i].Awaiting?
    ensures DispatchesAdvance(s, DoResumeError(s, i))
  {
    ReplaceAdvances(s, DoResumeError(s, i), i, DoResumeError(s, i).dispatches[i]);
  }

  lemma ReplyAdvances(s: State, i: nat, m: Message)
    requires Typed(s) && CaptureInv(s) && i < |s.dispatches| && s.dispatches[i].Awaiting?
    ensures DispatchesAdvance(s, DoResumeReply(s, i, m))
  {
    ReplyIsFinishThenClose(s, i, m);
    ReplaceAdvances(s, DoResumeReply(s, i, m), i, DoResumeReply(s, i, m).dispatches[i]);
  }

  lemma DispatchStepAdvances(s: State, step: Step)
    requires Typed(s) && CaptureInv(s) && Enabled(s, step)
    requires step.StartDispatch? || step.SendFails? || step.SendRaises? || step.ResumeWithReply? || step.ResumeWithError?
    ensures DispatchesAdvance(s, Apply(s, step))
  {
    match step
    case SendRaises(i) => ReplaceAdvances(s, Strand(s, i), i, Strand(s, i).dispatches[i]);
    case StartDispatch(i) => StartAdvances(s, i);
    case SendFails(i) => ErrorAdvances(s, i);
    case ResumeWithReply(i) => ReplyAdvances(s, i, ReplyOf(s, i));
    case ResumeWithError(i) => ErrorAdvances(s, i);
  }

  lemma OtherStepAdvances(s: State, step: Step)
    requires Typed(s) && Enabled(s, step) && LeavesLinks(step)
    ensures DispatchesAdvance(s, Apply(s, step))
  {
  }

  lemma StepAdvances(s: State, step: Step)
    requires Typed(s) && CaptureInv(s) && Enabled(s, step)
    ensures DispatchesAdvance(s, Apply(s, step))
  {
    if step.StartDispatch? || step.SendFails? || step.SendRaises? || step.ResumeWithReply? || step.ResumeWithError? {
      DispatchStepAdvances(s, step);
    } else if step.Accept? || step.Receive? || step.FinishAck? || step.Disconnect? {
      ConnectionMoves(s, step);
    } else {
      OtherStepAdvances(s, step);
    }
  }

  lemma AdvancesTransitive(s: State, q: State, r: State)
    requires DispatchesAdvance(s, q) && DispatchesAdvance(q, r) && Later(s, q)
    ensures DispatchesAdvance(s, r)
  {
    forall i | 0 <= i < |s.dispatches|
      ensures DispatchAdvances(s.dispatches[i], r.dispatches[i], AttemptOf(s, s.dispatches[i].task))
    {
      assert DispatchAdvances(s.dispatches[i], q.dispatches[i], AttemptOf(s, s.dispatches[i].task));
      assert DispatchAdvances(q.dispatches[i], r.dispatches[i], AttemptOf(q, q.dispatches[i].task));
    }
  }

  lemma {:induction false} RunAdvances(s: State, steps: seq<Step>, env: Env)
    requires Inv(s) && IsRun(s, steps, env)
    ensures DispatchesAdvance(s, Exec(s, steps, env))
    decreases |steps|
  {
    if steps != [] {
      var q := Apply(s, steps[0]);
      StepInv(s, steps[0]);
      StepMoves(s, steps[0]);
      MovesLater(s, q, AssignedBy(steps[0]));
      StepAdvances(s, steps[0]);
      RunAdvances(q, steps[1..], env);
      AdvancesTransitive(s, q, Exec(q, steps[1..], env));
    }
  }

  // ----- Rounds -----

  predicate InScope(t: string, scope: Option<set<string>>) { scope.Some? ==> t in scope.value }

  predicate Assignable(tasks: map<string, Task>, scope: Option<set<string>>, t: string) {
    t in tasks && tasks[t].status.Pending? && InScope(t, scope)
  }

  /** `assign_next_pending_task` would return `None`. */
  ghost predicate Exhausted(s: State, scope: Option<set<string>>) {
    forall t, w :: Assignable(s.tasks, scope, t) && w in s.workers ==> !s.workers[w].status.Idle?
  }

  ghost predicate IsBatch(batch: seq<Step>, scope: Option<set<string>>) {
    forall n :: 0 <= n < |batch| ==> batch[n].AssignTask? && InScope(batch[n].id, scope)
  }

  /** One turn of the loop: a batch assigned without suspending, then whatever the event loop
      runs while the batch is gathered. With a scope an empty batch is a pause. */
  datatype Round = Round(batch: seq<Step>, meanwhile: seq<Step>)

  ghost predicate Assigns(s: State, round: Round, scope: Option<set<string>>, env: Env)
    requires Typed(s)
  {
    && (round.batch == [] ==> scope.Some?)
    && IsBatch(round.batch, scope) && IsRun(s, round.batch, env) && Exhausted(Exec(s, round.batch, env), scope)
    && IsRun(Exec(s, round.batch, env), round.meanwhile, env)
  }

  ghost function After(s: State, round: Round, scope: Option<set<string>>, env: Env): (r: State)
    requires Typed(s) && Assigns(s, round, scope, env)
    ensures Typed(r)
  {
    Exec(Exec(s, round.batch, env), round.meanwhile, env)
  }

  /** The gather has returned: each of the `n` dispatches of the batch has. */
  ghost predicate BatchReturned(s: State, n: nat, r: State) {
    && |s.dispatches| + n <= |r.dispatches|
    && forall i :: |s.dispatches| <= i < |s.dispatches| + n ==> r.dispatches[i].Returned?
  }

  ghost function BatchDispatches(s: State, n: nat, r: State): seq<Dispatch>
    requires BatchReturned(s, n, r)
  {
    r.dispatches[|s.dispatches|..|s.dispatches| + n]
  }

  ghost predicate IsDrain(s: State, rounds: seq<Round>, scope: Option<set<string>>, env: Env)
    requires Typed(s)
    decreases |rounds|
  {
    rounds == [] ||
    (Assigns(s, rounds[0], scope, env) &&
     var r := After(s, rounds[0], scope, env);
     BatchReturned(s, |rounds[0].batch|, r) && IsDrain(r, rounds[1..], scope, env))
  }

  ghost function DrainEnd(s: State, rounds: seq<Round>, scope: Option<set<string>>, env: Env): (r: State)
    requires Typed(s) && IsDrain(s, rounds, scope, env)
    ensures Typed(r)
    decreases |rounds|
  {
    if rounds == [] then s else DrainEnd(After(s, rounds[0], scope, env), rounds[1..], scope, env)
  }

  /** The dispatches whose responses the drain returns, in that order. */
  ghost function Drained(s: State, rounds: seq<Round>, scope: Option<set<string>>, env: Env): seq<Dispatch>
    requires Typed(s) && IsDrain(s, rounds, scope, env)
    decreases |rounds|
  {
    if rounds == [] then []
    else
      var r := After(s, rounds[0], scope, env);
      BatchDispatches(s, |rounds[0].batch|, r) + Drained(r, rounds[1..], scope, env)
  }

  // ----- A batch -----

  predicate AllAssign(batch: seq<Step>) { forall n :: 0 <= n < |batch| ==> batch[n].AssignTask? }

  /** What assigning a batch does: it takes pending tasks, each once and one attempt up, leaves
      the tasks already taken alone, and spawns the batch's dispatches in order. */
  ghost predicate Takes(s: State, batch: seq<Step>, q: State)
    requires AllAssign(batch)
  {
    && (forall n :: 0 <= n < |batch| ==> batch[n].id in s.tasks && s.tasks[batch[n].id].status.Pending?)
    && (forall n, k :: 0 <= n < k < |batch| ==> batch[n].id != batch[k].id)
    && (forall n :: 0 <= n < |batch| ==> AttemptOf(q, batch[n].id) == AttemptOf(s, batch[n].id) + 1)
    && (forall t :: t in s.tasks && !s.tasks[t].status.Pending? ==> t in q.tasks && q.tasks[t] == s.tasks[t])
  }

  ghost predicate Spawns(s: State, batch: seq<Step>, q: State)
    requires AllAssign(batch)
  {
    && |q.dispatches| == |s.dispatches| + |batch|
    && forall i :: |s.dispatches| <= i < |q.dispatches| ==> q.dispatches[i] == Spawned(batch[i - |s.dispatches|].id)
  }

  lemma TakesOneMore(s: State, batch: seq<Step>, q: State, r: State)
    requires batch != [] && AllAssign(batch) && Enabled(s, batch[0]) && q == DoAssign(s, batch[0].id, batch[0].worker)
    requires Takes(q, batch[1..], r)
    ensures Takes(s, batch, r)
  {
    var rest := batch[1..];
    assert forall n :: 1 <= n < |batch| ==> batch[n] == rest[n - 1];
    forall n | 1 <= n < |batch| ensures batch[n].id != batch[0].id && s.tasks[batch[n].id] == q.tasks[batch[n].id] {
      assert batch[n] == rest[n - 1];
    }
    forall n | 0 <= n < |batch| ensures AttemptOf(r, batch[n].id) == AttemptOf(s, batch[n].id) + 1 {
      if n > 0 { assert batch[n] == rest[n - 1]; }
    }
  }

  lemma SpawnsOneMore(s: State, batch: seq<Step>, q: State, r: State)
    requires batch != [] && AllAssign(batch) && q.dispatches == s.dispatches + [Spawned(batch[0].id)]
    requires q.dispatches <= r.dispatches && Spawns(q, batch[1..], r)
    ensures s.dispatches <= r.dispatches && Spawns(s, batch, r)
  {
  }

  lemma {:induction false} BatchTakes(s: State, batch: seq<Step>, env: Env)
    requires Typed(s) && IsRun(s, batch, env) && AllAssign(batch)
    ensures Takes(s, batch, Exec(s, batch, env))
    ensures s.dispatches <= Exec(s, batch, env).dispatches && Spawns(s, batch, Exec(s, batch, env))
    decreases |batch|
  {
    if batch != [] {
      var q := Apply(s, batch[0]);
      BatchTakes(q, batch[1..], env);
      TakesOneMore(s, batch, q, Exec(q, batch[1..], env));
      SpawnsOneMore(s, batch, q, Exec(q, batch[1..], env));
    }
  }

  // ----- Order of the responses -----

  /** Of two responses of one task the later one is of a later attempt. */
  ghost predicate Increasing(ds: seq<Dispatch>) {
    forall p, q :: 0 <= p < q < |ds| && ds[p].Returned? && ds[q].Returned? && ds[p].task == ds[q].task ==>
      ds[p].attempt < ds[q].attempt
  }

  /** Returned dispatches of different tasks, each of an attempt made after `s` and by `r`. */
  ghost predicate FromRound(s: State, ds: seq<Dispatch>, r: State) {
    && (forall p :: 0 <= p < |ds| ==> ds[p].Returned? && AttemptOf(s, ds[p].task) < ds[p].attempt <= AttemptOf(r, ds[p].task))
    && (forall p, q :: 0 <= p < q < |ds| ==> ds[p].task != ds[q].task)
  }

  lemma CollectedFromRound(s: State, batch: seq<Step>, q: State, r: State)
    requires AllAssign(batch) && Takes(s, batch, q) && Spawns(s, batch, q) && DispatchesAdvance(q, r)
    requires Typed(r) && CaptureInv(r) && BatchReturned(s, |batch|, r)
    ensures FromRound(s, BatchDispatches(s, |batch|, r), r)
  {
    var ds := BatchDispatches(s, |batch|, r);
    forall p | 0 <= p < |ds|
      ensures ds[p].Returned? && ds[p].task == batch[p].id && AttemptOf(s, ds[p].task) < ds[p].attempt <= AttemptOf(r, ds[p].task)
    {
      var i := |s.dispatches| + p;
      assert q.dispatches[i] == Spawned(batch[p].id);
      assert DispatchAdvances(q.dispatches[i], r.dispatches[i], AttemptOf(q, q.dispatches[i].task));
      assert CaptureOk(r.tasks[r.dispatches[i].task], r.dispatches[i]);
    }
  }

  lemma RoundLater(s: State, round: Round, scope: Option<set<string>>, env: Env)
    requires Inv(s) && Assigns(s, round, scope, env)
    ensures Inv(Exec(s, round.batch, env)) && Inv(After(s, round, scope, env))
    ensures Later(Exec(s, round.batch, env), After(s, round, scope, env)) && Later(s, After(s, round, scope, env))
  {
    var q := Exec(s, round.batch, env);
    RunInv(s, round.batch, env);
    RunInv(q, round.meanwhile, env);
    RunLater(s, round.batch, env);
    RunLater(q, round.meanwhile, env);
    LaterTransitive(s, q, After(s, round, scope, env));
  }

  lemma RoundCollects(s: State, round: Round, scope: Option<set<string>>, env: Env)
    requires Typed(s) && Assigns(s, round, scope, env) && BatchReturned(s, |round.batch|, After(s, round, scope, env))
    requires Inv(Exec(s, round.batch, env)) && CaptureInv(After(s, round, scope, env))
    ensures FromRound(s, BatchDispatches(s, |round.batch|, After(s, round, scope, env)), After(s, round, scope, env))
  {
    var q := Exec(s, round.batch, env);
    BatchTakes(s, round.batch, env);
    RunAdvances(q, round.meanwhile, env);
    CollectedFromRound(s, round.batch, q, After(s, round, scope, env));
  }

  /** All of the drain's responses are of attempts made after it began. */
  ghost predicate AllAfter(s: State, ds: seq<Dispatch>) {
    forall p :: 0 <= p < |ds| ==> ds[p].Returned? && AttemptOf(s, ds[p].task) < ds[p].attempt
  }

  lemma RoundThenRest(s: State, r: State, first: seq<Dispatch>, rest: seq<Dispatch>)
    requires FromRound(s, first, r) && AllAfter(r, rest) && Increasing(rest) && Later(s, r)
    ensures AllAfter(s, first + rest) && Increasing(first + rest)
  {
    var ds := first + rest;
    forall p | 0 <= p < |ds| ensures ds[p].Returned? && AttemptOf(s, ds[p].task) < ds[p].attempt {
      if p >= |first| { assert ds[p] == rest[p - |first|]; }
    }
    forall p, q | 0 <= p < q < |ds| && ds[p].task == ds[q].task ensures ds[p].attempt < ds[q].attempt {
      if q >= |first| {
        assert ds[q] == rest[q - |first|];
        if p >= |first| { assert ds[p] == rest[p - |first|]; }
      }
    }
  }

  /** In the list a drain returns, the responses of one task are of strictly increasing
      attempts, all made after the drain began, with any other work interleaved. */
  lemma {:induction false} DrainIsOrdered(s: State, rounds: seq<Round>, scope: Option<set<string>>, env: Env)
    requires Inv(s) && IsDrain(s, rounds, scope, env)
    ensures Increasing(Drained(s, rounds, scope, env)) && AllAfter(s, Drained(s, rounds, scope, env))
    decreases |rounds|
  {
    if rounds != [] {
      var r := After(s, rounds[0], scope, env);
      RoundLater(s, rounds[0], scope, env);
      RoundCollects(s, rounds[0], scope, env);
      DrainIsOrdered(r, rounds[1..], scope, env);
      RoundThenRest(s, r, BatchDispatches(s, |rounds[0].batch|, r), Drained(r, rounds[1..], scope, env));
    }
  }

  // ----- Termination -----

  /** The attempts the tasks named by `ids` have left; one not submitted yet has all of them. */
  function Budget(s: State, ids: seq<string>): int {
    if ids == [] then 0 else MAX_TASK_ATTEMPTS - AttemptOf(s, ids[0]) + Budget(s, ids[1..])
  }

  lemma {:induction false} BudgetFalls(s: State, r: State, ids: seq<string>)
    requires forall t :: AttemptOf(s, t) <= AttemptOf(r, t)
    ensures Budget(r, ids) <= Budget(s, ids)
    ensures forall t :: t in ids && AttemptOf(s, t) < AttemptOf(r, t) ==> Budget(r, ids) < Budget(s, ids)
    decreases |ids|
  {
    if ids != [] { BudgetFalls(s, r, ids[1..]); }
  }

  lemma {:induction false} BudgetIsNatural(s: State, ids: seq<string>)
    requires TaskInv(s)
    ensures 0 <= Budget(s, ids)
    decreases |ids|
  {
    if ids != [] {
      BudgetIsNatural(s, ids[1..]);
      assert ids[0] in s.tasks ==> TaskOk(s.workers, s.tasks[ids[0]]);
    }
  }

  function Pauses(rounds: seq<Round>): nat {
    if rounds == [] then 0 else (if rounds[0].batch == [] then 1 else 0) + Pauses(rounds[1..])
  }

  lemma RoundSpends(s: State, round: Round, scope: Option<set<string>>, env: Env, ids: seq<string>)
    requires Typed(s) && Assigns(s, round, scope, env)
    requires Later(s, After(s, round, scope, env)) && Later(Exec(s, round.batch, env), After(s, round, scope, env))
    requires forall t :: t in s.tasks ==> t in ids
    ensures Budget(After(s, round, scope, env), ids) <= Budget(s, ids) - if round.batch == [] then 0 else 1
  {
    var r := After(s, round, scope, env);
    BudgetFalls(s, r, ids);
    if round.batch != [] {
      BatchTakes(s, round.batch, env);
      assert AttemptOf(s, round.batch[0].id) < AttemptOf(r, round.batch[0].id);
    }
  }

  lemma {:induction false} DrainKeepsTasks(s: State, rounds: seq<Round>, scope: Option<set<string>>, env: Env)
    requires Inv(s) && IsDrain(s, rounds, scope, env)
    ensures Later(s, DrainEnd(s, rounds, scope, env))
    decreases |rounds|
  {
    if rounds != [] {
      var r := After(s, rounds[0], scope, env);
      RoundLater(s, rounds[0], scope, env);
      DrainKeepsTasks(r, rounds[1..], scope, env);
      LaterTransitive(s, r, DrainEnd(r, rounds[1..], scope, env));
    }
  }

  /** A drain makes no more assigning rounds than the tasks it meets have attempts left, so the
      unscoped drain, which never pauses, ends. */
  lemma {:induction false} DrainStops(s: State, rounds: seq<Round>, scope: Option<set<string>>, env: Env, ids: seq<string>)
    requires Inv(s) && IsDrain(s, rounds, scope, env)
    requires forall t :: t in DrainEnd(s, rounds, scope, env).tasks ==> t in ids
    ensures |rounds| <= Budget(s, ids) + Pauses(rounds)
    ensures scope.None? ==> Pauses(rounds) == 0
    decreases |rounds|
  {
    if rounds == [] {
      BudgetIsNatural(s, ids);
    } else {
      var r := After(s, rounds[0], scope, env);
      DrainKeepsTasks(s, rounds, scope, env);
      RoundLater(s, rounds[0], scope, env);
      RoundSpends(s, rounds[0], scope, env, ids);
      DrainStops(r, rounds[1..], scope, env, ids);
    }
  }

  // ----- How an unscoped drain ends -----

  ghost predicate NonePending(s: State) { forall t :: t in s.tasks ==> !s.tasks[t].status.Pending? }
  ghost predicate NoneIdle(s: State) { forall w :: w in s.workers ==> !s.workers[w].status.Idle? }

  lemma ExhaustedUnscoped(s: State)
    ensures Exhausted(s, None) <==> NonePending(s) || NoneIdle(s)
  {
    if !NonePending(s) {
      var t :| t in s.tasks && s.tasks[t].status.Pending?;
      assert Assignable(s.tasks, None, t);
    }
  }

  ghost function PendingTasks(s: State): set<string> { set t | t in s.tasks && s.tasks[t].status.Pending? }

  lemma AssignedNoMore(s: State, t: string, w: string)
    requires Typed(s) && Enabled(s, AssignTask(t, w))
    ensures Typed(DoAssign(s, t, w)) && PendingTasks(DoAssign(s, t, w)) < PendingTasks(s)
  {
    assert Apply(s, AssignTask(t, w)) == DoAssign(s, t, w);
    assert t in PendingTasks(s) && t !in PendingTasks(DoAssign(s, t, w));
  }

  lemma BatchFirst(s: State, t: string, w: string, rest: seq<Step>, env: Env)
    requires Typed(s) && Enabled(s, AssignTask(t, w)) && Typed(DoAssign(s, t, w)) && IsRun(DoAssign(s, t, w), rest, env)
    ensures var batch := [AssignTask(t, w)] + rest;
            IsRun(s, batch, env) && Exec(s, batch, env) == Exec(DoAssign(s, t, w), rest, env)
  {
    assert Apply(s, AssignTask(t, w)) == DoAssign(s, t, w);
    assert ([AssignTask(t, w)] + rest)[1..] == rest;
  }

  /** Assigning as long as something can be assigned comes to an end. */
  lemma {:induction false} GreedyBatch(s: State, env: Env) returns (batch: seq<Step>)
    requires Typed(s)
    ensures IsBatch(batch, None) && IsRun(s, batch, env) && Exhausted(Exec(s, batch, env), None)
    ensures batch == [] ==> Exhausted(s, None)
    decreases PendingTasks(s)
  {
    if Exhausted(s, None) {
      batch := [];
    } else {
      var t, w :| Assignable(s.tasks, None, t) && w in s.workers && s.workers[w].status.Idle?;
      AssignedNoMore(s, t, w);
      var rest := GreedyBatch(DoAssign(s, t, w), env);
      batch := [AssignTask(t, w)] + rest;
      BatchFirst(s, t, w, rest, env);
    }
  }

  lemma ExhaustedAssignsNothing(s: State, round: Round, env: Env)
    requires Typed(s) && Exhausted(s, None)
    ensures !Assigns(s, round, None, env)
  {
    if round.batch != [] && IsBatch(round.batch, None) && IsRun(s, round.batch, env) {
      var step := round.batch[0];
      assert step.AssignTask? && Enabled(s, step);
      assert Assignable(s.tasks, None, step.id);
    }
  }

  /** An unscoped drain goes on as long as it can assign anything, so where no further round is
      possible, and only there, no task is PENDING or no worker is IDLE. */
  lemma DrainEndsExhausted(s: State, rounds: seq<Round>, env: Env)
    requires Typed(s) && IsDrain(s, rounds, None, env)
    ensures var end := DrainEnd(s, rounds, None, env);
            (forall round :: !Assigns(end, round, None, env)) <==> NonePending(end) || NoneIdle(end)
  {
    var end := DrainEnd(s, rounds, None, env);
    ExhaustedUnscoped(end);
    if Exhausted(end, None) {
      forall round ensures !Assigns(end, round, None, env) { ExhaustedAssignsNothing(end, round, env); }
    } else {
      var batch := GreedyBatch(end, env);
      assert Assigns(end, Round(batch, []), None, env);
    }
  }
}
