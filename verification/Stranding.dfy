/** A RUNNING task loses its dispatch exactly when an uncaught error ends that dispatch. */
module Stranding {
  import opened Entities
  import opened Protocol
  import opened Invariant
  import opened DispatchSteps
  import opened Runs
  import opened Evolution
  import opened Traces

  /** The task is RUNNING and no dispatch holds its current attempt. */
  ghost predicate Stranded(s: State, t: string) {
    && t in s.tasks && s.tasks[t].status.Running? && s.tasks[t].worker.Some?
    && !HasHolder(s, t, s.tasks[t].worker.value, s.tasks[t].attempt)
  }

  ghost predicate NoneStranded(s: State) { forall t :: !Stranded(s, t) }

  /** A dead dispatch whose attempt is the one its task is RUNNING at. */
  predicate IsCasualty(s: State, d: Dispatch) {
    d.RaisedInFlight? && d.task in s.tasks && s.tasks[d.task].status.Running? && s.tasks[d.task].attempt == d.attempt
  }

  ghost predicate NoCasualties(s: State) {
    forall i :: 0 <= i < |s.dispatches| ==> !IsCasualty(s, s.dispatches[i])
  }

  lemma CasualtyStrands(s: State, i: nat)
    requires Inv(s) && i < |s.dispatches| && IsCasualty(s, s.dispatches[i])
    ensures Stranded(s, s.dispatches[i].task)
  {
    var d := s.dispatches[i];
    var task := s.tasks[d.task];
    assert TaskOk(s.workers, task);
    forall j | 0 <= j < |s.dispatches| ensures !s.dispatches[j].Holds(d.task, task.worker.value, task.attempt) {
      if j != i { OthersApart(s, i, j); }
    }
  }

  /** In every reachable state the two are the same. */
  lemma StrandedByCasualties(s: State)
    requires Inv(s)
    ensures NoneStranded(s) <==> NoCasualties(s)
  {
    if NoneStranded(s) {
      forall i | 0 <= i < |s.dispatches| ensures !IsCasualty(s, s.dispatches[i]) {
        if IsCasualty(s, s.dispatches[i]) { CasualtyStrands(s, i); }
      }
    } else {
      var t :| Stranded(s, t);
      assert HasCasualty(s, t, s.tasks[t].attempt);
      var i :| 0 <= i < |s.dispatches| && s.dispatches[i] == RaisedInFlight(t, s.tasks[t].attempt);
      assert IsCasualty(s, s.dispatches[i]);
    }
  }

  // ----- Steps -----

  /** No dispatch dies in the step. */
  ghost predicate NoDeath(s: State, r: State) {
    forall i :: 0 <= i < |r.dispatches| && r.dispatches[i].RaisedInFlight? ==>
      i < |s.dispatches| && r.dispatches[i] == s.dispatches[i]
  }

  lemma NoDeathNoCasualty(s: State, r: State, chosen: Option<string>)
    requires Inv(s) && NoCasualties(s) && Moves(s, r, chosen) && NoDeath(s, r)
    ensures NoCasualties(r)
  {
    forall i | 0 <= i < |r.dispatches| ensures !IsCasualty(r, r.dispatches[i]) {
      var d := r.dispatches[i];
      if d.RaisedInFlight? {
        assert CaptureOk(s.tasks[d.task], d);
        assert !IsCasualty(s, s.dispatches[i]);
        assert chosen != Some(d.task) ==> TaskAdvances(s.tasks[d.task], r.tasks[d.task]);
      }
    }
  }

  /** A dispatch that dies makes a casualty exactly when it was current. */
  lemma DeathOfACurrent(s: State, i: nat)
    requires Inv(s) && NoCasualties(s) && i < |s.dispatches| && s.dispatches[i].Awaiting?
    ensures NoCasualties(Strand(s, i)) <==> !Current(s, s.dispatches[i])
  {
    var d := s.dispatches[i];
    var r := Strand(s, i);
    if Current(s, d) {
      CurrentIsRunning(s, i);
      assert IsCasualty(r, r.dispatches[i]);
    } else {
      StaleIsNotRunning(s, i);
      forall j | 0 <= j < |r.dispatches| ensures !IsCasualty(r, r.dispatches[j]) {
        if j != i { assert !IsCasualty(s, s.dispatches[j]); }
      }
    }
  }

  lemma OnlyHolder(s: State, i: nat, w: string)
    requires UniqueInv(s) && i < |s.dispatches| && s.dispatches[i].Awaiting? && s.dispatches[i].worker != w
    ensures !HasHolder(s, s.dispatches[i].task, w, s.dispatches[i].attempt)
  {
    forall j | 0 <= j < |s.dispatches| ensures !s.dispatches[j].Holds(s.dispatches[i].task, w, s.dispatches[i].attempt) {
      if j != i { OthersApart(s, i, j); }
    }
  }

  lemma NoneDied(s: State, t: string)
    requires NoCasualties(s) && t in s.tasks && s.tasks[t].status.Running?
    ensures !HasCasualty(s, t, s.tasks[t].attempt)
  {
    forall j | 0 <= j < |s.dispatches| ensures s.dispatches[j] != RaisedInFlight(t, s.tasks[t].attempt) {
      assert !IsCasualty(s, s.dispatches[j]);
    }
  }

  lemma StaleIsNotRunning(s: State, i: nat)
    requires Typed(s) && TaskInv(s) && UniqueInv(s) && LiveInv(s) && NoCasualties(s)
    requires i < |s.dispatches| && s.dispatches[i].Awaiting? && !Current(s, s.dispatches[i])
    ensures var task := s.tasks[s.dispatches[i].task]; task.status.Running? ==> task.attempt != s.dispatches[i].attempt
  {
    var d := s.dispatches[i];
    var task := s.tasks[d.task];
    assert TaskOk(s.workers, task);
    if task.status.Running? {
      NoneDied(s, d.task);
      if task.worker.value != d.worker { OnlyHolder(s, i, task.worker.value); }
    }
  }

  lemma ReplyDeath(s: State, i: nat, m: Message)
    requires Typed(s) && CaptureInv(s) && i < |s.dispatches| && s.dispatches[i].Awaiting?
    requires !(Current(s, s.dispatches[i]) && m.body.StatuslessResult?)
    ensures NoDeath(s, DoResumeReply(s, i, m))
  {
    ReplyIsFinishThenClose(s, i, m);
  }

  lemma ErrorDeath(s: State, i: nat)
    requires Typed(s) && i < |s.dispatches| && s.dispatches[i].Awaiting?
    ensures NoDeath(s, DoResumeError(s, i))
  {
  }

  lemma StartDeath(s: State, i: nat)
    requires Typed(s) && i < |s.dispatches| && s.dispatches[i].Spawned?
    ensures NoDeath(s, DoStart(s, i))
  {
  }

  lemma QuietDeath(s: State, step: Step)
    requires Typed(s) && Enabled(s, step)
    requires !step.StartDispatch? && !step.SendFails? && !step.SendRaises? && !step.ResumeWithReply? && !step.ResumeWithError?
    requires !step.Accept? && !step.Receive? && !step.FinishAck? && !step.Disconnect?
    ensures NoDeath(s, Apply(s, step))
  {
  }

  lemma StepDeath(s: State, step: Step)
    requires Inv(s) && Enabled(s, step) && !step.SendRaises? && !Strands(s, step)
    ensures NoDeath(s, Apply(s, step))
  {
    match step
    case StartDispatch(i) => StartDeath(s, i);
    case SendFails(i) => ErrorDeath(s, i);
    case ResumeWithError(i) => ErrorDeath(s, i);
    case ResumeWithReply(i) => ReplyDeath(s, i, ReplyOf(s, i));
    case Accept => ConnectionMoves(s, step);
    case Receive(_, _) => ConnectionMoves(s, step);
    case FinishAck(_) => ConnectionMoves(s, step);
    case Disconnect(_) => ConnectionMoves(s, step);
    case _ => QuietDeath(s, step);
  }

  lemma StrandingIsDeath(s: State, step: Step)
    requires Inv(s) && Enabled(s, step) && Strands(s, step)
    ensures Apply(s, step) == Strand(s, step.index)
  {
    if step.ResumeWithReply? { ReplyIsFinishThenClose(s, step.index, ReplyOf(s, step.index)); }
  }

  /** A step leaves no RUNNING task without a dispatch exactly when no uncaught error ends the
      dispatch of a current attempt. */
  lemma SoundIsExact(s: State, step: Step)
    requires Inv(s) && NoneStranded(s) && Enabled(s, step)
    ensures NoneStranded(Apply(s, step)) <==> !Strands(s, step)
  {
    StepInv(s, step);
    StrandedByCasualties(s);
    StrandedByCasualties(Apply(s, step));
    if Strands(s, step) {
      StrandingIsDeath(s, step);
      DeathOfACurrent(s, step.index);
    } else if step.SendRaises? {
      DeathOfACurrent(s, step.index);
    } else {
      StepDeath(s, step);
      StepMoves(s, step);
      NoDeathNoCasualty(s, Apply(s, step), AssignedBy(step));
    }
  }

  lemma {:induction false} RunSound(s: State, steps: seq<Step>, env: Env)
    requires Inv(s) && NoneStranded(s) && IsRun(s, steps, env) && env.sound
    ensures NoneStranded(Exec(s, steps, env))
    decreases |steps|
  {
    if steps != [] {
      StepInv(s, steps[0]);
      SoundIsExact(s, steps[0]);
      RunSound(Apply(s, steps[0]), steps[1..], env);
    }
  }
}
