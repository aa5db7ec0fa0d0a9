/** What the master guarantees of every run that starts empty. */
module Guarantees {
  import opened Entities
  import opened RequestIds
  import opened Protocol
  import opened Invariant
  import opened DispatchSteps
  import opened Evolution
  import opened Traces
  import opened Stranding
  import opened Ownership
  import opened Stopping
  import opened Links
  import opened Replies

  lemma InitHolds()
    ensures Inv(Init) && OwnInv(Init) && LinkInv(Init) && forall h: Option<Executor> :: ReplyInv(Init, h)
    ensures NoneStranded(Init) && StoppedOwns(Init) && SendsInv(Init)
  {
    InitInv();
  }

  // ----- No orphaned work -----

  /** Dispatch `i` is carrying out the current attempt of `t`, and its send will be woken: its
      future is done, or the handler that settles it is still there. */
  ghost predicate CarriesOut(s: State, i: nat, t: string) {
    && i < |s.dispatches| && t in s.tasks && s.tasks[t].worker.Some?
    && s.dispatches[i].Holds(t, s.tasks[t].worker.value, s.tasks[t].attempt)
    && s.dispatches[i].link < |s.links|
    && var link := s.links[s.dispatches[i].link];
       var id := AttemptRequestId(t, s.tasks[t].attempt);
       id in link.pending && (link.pending[id].Unresolved? ==> !link.phase.Exited?)
  }

  lemma HolderCarriesOut(s: State, i: nat, t: string)
    requires Inv(s) && LinkInv(s) && t in s.tasks && s.tasks[t].worker.Some? && i < |s.dispatches|
    requires s.dispatches[i].Holds(t, s.tasks[t].worker.value, s.tasks[t].attempt)
    ensures CarriesOut(s, i, t)
  {
    assert InTable(s, s.dispatches[i]);
    if s.links[s.dispatches[i].link].phase.Exited? { assert Settled(s.links[s.dispatches[i].link].pending); }
  }

  lemma HolderIsUnique(s: State, i: nat, j: nat, t: string)
    requires UniqueInv(s) && CarriesOut(s, i, t) && CarriesOut(s, j, t)
    ensures i == j
  {
    assert i < j ==> Apart(s.dispatches[i], s.dispatches[j]);
    assert j < i ==> Apart(s.dispatches[j], s.dispatches[i]);
  }

  /** In every reachable state an ASSIGNED task has a dispatch about to start and a RUNNING
      task has exactly one dispatch carrying out its current attempt. */
  lemma NoWorkOrphaned(steps: seq<Step>, env: Env)
    requires IsRun(Init, steps, env) && env.oneIdPerLink && env.sound
    ensures var s := Exec(Init, steps, env);
            && (forall t :: t in s.tasks && s.tasks[t].status.Assigned? ==> HasSpawned(s, t))
            && (forall t :: t in s.tasks && s.tasks[t].status.Running? ==>
                  exists i :: CarriesOut(s, i, t) && forall j :: CarriesOut(s, j, t) ==> j == i)
  {
    var s := Exec(Init, steps, env);
    InitHolds();
    RunInv(Init, steps, env);
    RunLinks(Init, steps, env);
    RunSound(Init, steps, env);
    forall t | t in s.tasks && s.tasks[t].status.Running?
      ensures exists i :: CarriesOut(s, i, t) && forall j :: CarriesOut(s, j, t) ==> j == i
    {
      assert TaskOk(s.workers, s.tasks[t]) && !Stranded(s, t);
      var i :| 0 <= i < |s.dispatches| && s.dispatches[i].Holds(t, s.tasks[t].worker.value, s.tasks[t].attempt);
      HolderCarriesOut(s, i, t);
      forall j | CarriesOut(s, j, t) ensures j == i { HolderIsUnique(s, i, j, t); }
    }
  }

  // ----- Ownership -----

  /** In every reachable state of a calm run: IDLE and FAILED workers own nothing, a BUSY worker
      owns exactly one task, and any other worker at most one. */
  lemma WorkersOwnWhatTheyShould(steps: seq<Step>, env: Env, w: string)
    requires IsRun(Init, steps, env) && env.calm && w in Exec(Init, steps, env).workers
    ensures var s := Exec(Init, steps, env);
            var status := s.workers[w].status;
            && (status.Idle? || status.WorkerFailed? ==> OwnsNone(s, w))
            && (status.Busy? ==> Owns(s, w))
            && (forall t, u :: t in s.tasks && u in s.tasks && s.tasks[t].OwnedBy(w) && s.tasks[u].OwnedBy(w) ==> t == u)
  {
    InitHolds();
    RunInv(Init, steps, env);
    RunOwn(Init, steps, env);
  }

  /** Where connections are installed safely and no current dispatch dies, what a STOPPED worker
      still owns has not started, and there is no connection to start it on. */
  lemma StoppedWorkersRunNothing(steps: seq<Step>, env: Env, t: string, w: string)
    requires IsRun(Init, steps, env) && env.safeInstalls && env.sound
    requires w in Exec(Init, steps, env).workers && Exec(Init, steps, env).workers[w].status.Stopped?
    requires t in Exec(Init, steps, env).tasks && Exec(Init, steps, env).tasks[t].OwnedBy(w)
    ensures Exec(Init, steps, env).tasks[t].status.Assigned? && w !in Exec(Init, steps, env).connections
  {
    InitHolds();
    RunStop(Init, steps, env);
  }

  // ----- Stale attempts -----

  /** How a send ends: with a reply, with an error the dispatch expects, or with one nothing catches. */
  datatype SendEnd = Replied(message: Message) | Failed | Raised

  /** What a suspended dispatch does then. */
  function Resume(s: State, i: nat, how: SendEnd): State
    requires i < |s.dispatches| && s.dispatches[i].Awaiting? && Typed(s)
  {
    match how
    case Replied(m) => DoResumeReply(s, i, m)
    case Failed => DoResumeError(s, i)
    case Raised => Strand(s, i)
  }

  ghost predicate OtherFuturesKept(s: State, r: State, i: nat) {
    forall j, f :: j != i && FutureIs(s, j, f) ==> FutureIs(r, j, f)
  }

  lemma PopKeepsOthers(s: State, r: State, i: nat)
    requires Typed(s) && UniqueInv(s) && i < |s.dispatches| && s.dispatches[i].Awaiting?
    requires r.links == PopPending(s, i).links && |r.dispatches| == |s.dispatches|
    requires forall j :: 0 <= j < |s.dispatches| && j != i ==> r.dispatches[j] == s.dispatches[j]
    ensures OtherFuturesKept(s, r, i)
  {
    forall j, f | j != i && FutureIs(s, j, f) ensures FutureIs(r, j, f) { SendsHaveDistinctIds(s, i, j); }
  }

  lemma OthersCarryOn(s: State, r: State, i: nat, j: nat, t: string)
    requires Typed(s) && OtherFuturesKept(s, r, i) && CarriesOut(s, j, t) && j != i && r.tasks == s.tasks
    requires |r.dispatches| == |s.dispatches| && r.dispatches[j] == s.dispatches[j]
    requires |r.links| == |s.links| && forall l :: 0 <= l < |s.links| ==> r.links[l].phase == s.links[l].phase
    ensures CarriesOut(r, j, t)
  {
    var id := AttemptRequestId(t, s.tasks[t].attempt);
    var f := s.links[s.dispatches[j].link].pending[id];
    assert FutureIs(s, j, f);
    assert FutureIs(r, j, f);
  }

  /** Where a stale dispatch is left: it returned its response, or died. */
  function StaleEnd(d: Dispatch, how: SendEnd): Dispatch
    requires d.Awaiting?
  {
    match how
    case Replied(m) => Returned(d.task, d.attempt, WorkerReply(m))
    case Failed => Returned(d.task, d.attempt, Unreachable(d.task, d.attempt))
    case Raised => RaisedInFlight(d.task, d.attempt)
  }

  function PopAndEnd(s: State, i: nat, e: Dispatch): State
    requires i < |s.dispatches| && s.dispatches[i].Awaiting? && Typed(s)
  {
    PopPending(s, i).(dispatches := s.dispatches[i := e])
  }

  lemma StaleIsPopped(s: State, i: nat, how: SendEnd)
    requires Typed(s) && i < |s.dispatches| && s.dispatches[i].Awaiting? && !Current(s, s.dispatches[i])
    ensures Resume(s, i, how) == PopAndEnd(s, i, StaleEnd(s.dispatches[i], how))
  {
  }

  lemma PopAndEndKeepsOthers(s: State, i: nat, e: Dispatch)
    requires Typed(s) && UniqueInv(s) && i < |s.dispatches| && s.dispatches[i].Awaiting? && !Current(s, s.dispatches[i])
    ensures OtherFuturesKept(s, PopAndEnd(s, i, e), i)
    ensures forall j, t :: CarriesOut(s, j, t) ==> CarriesOut(PopAndEnd(s, i, e), j, t)
  {
    var r := PopAndEnd(s, i, e);
    PopKeepsOthers(s, r, i);
    forall j, t | CarriesOut(s, j, t) ensures CarriesOut(r, j, t) { OthersCarryOn(s, r, i, j, t); }
  }

  /** A dispatch that resumes after its task moved on, however its send ended, changes no task,
      worker, connection, registry entry or waiter: it leaves its link's table, where every other
      send keeps its future, and is over. Whatever dispatch carries out any task goes on doing so. */
  lemma StaleResumeIsInert(s: State, i: nat, how: SendEnd)
    requires Inv(s) && i < |s.dispatches| && s.dispatches[i].Awaiting? && !Current(s, s.dispatches[i])
    ensures var r := Resume(s, i, how);
            && r == s.(links := r.links, dispatches := s.dispatches[i := StaleEnd(s.dispatches[i], how)])
            && OtherFuturesKept(s, r, i)
            && forall j, t :: CarriesOut(s, j, t) ==> CarriesOut(r, j, t)
  {
    StaleIsPopped(s, i, how);
    PopAndEndKeepsOthers(s, i, StaleEnd(s.dispatches[i], how));
  }

  /** So in any run, whatever a stale attempt comes back with, the current attempt of its task, even
      on the same worker and the same connection, is carried out by the same dispatch as before. */
  lemma StaleAttemptsCannotInterfere(steps: seq<Step>, env: Env, i: nat, how: SendEnd)
    requires IsRun(Init, steps, env) && env.oneIdPerLink && env.sound && i < |Exec(Init, steps, env).dispatches|
    requires var s := Exec(Init, steps, env); s.dispatches[i].Awaiting? && !Current(s, s.dispatches[i])
    ensures var s := Exec(Init, steps, env);
            var r := Resume(s, i, how);
            var t := s.dispatches[i].task;
            && r.tasks == s.tasks && r.workers == s.workers && r.connections == s.connections && r.responses == s.responses
            && OtherFuturesKept(s, r, i)
            && (s.tasks[t].status.Running? ==> exists j :: j != i && CarriesOut(s, j, t) && CarriesOut(r, j, t))
  {
    var s := Exec(Init, steps, env);
    var t := s.dispatches[i].task;
    InitHolds();
    RunInv(Init, steps, env);
    StaleResumeIsInert(s, i, how);
    NoWorkOrphaned(steps, env);
    if s.tasks[t].status.Running? {
      var j :| CarriesOut(s, j, t);
      assert CarriesOut(Resume(s, i, how), j, t);
    }
  }

  /** A dispatch that resumes as current finds its task RUNNING, so completing it never raises. */
  lemma CurrentResumeNeverRaises(s: State, i: nat, how: SendEnd)
    requires Inv(s) && i < |s.dispatches| && s.dispatches[i].Awaiting? && Current(s, s.dispatches[i])
    ensures s.tasks[s.dispatches[i].task].status.Running?
    ensures forall d :: d in Resume(s, i, how).dispatches ==> !d.RaisedAtComplete?
  {
    CurrentIsRunning(s, i);
    match how {
      case Replied(m) => ResumeReplyInv(s, i, m);
      case Failed => ResumeErrorInv(s, i);
      case Raised => StrandInv(s, i);
    }
    NoneRaisedAtComplete(Resume(s, i, how));
  }

  lemma NoneRaisedAtComplete(s: State)
    requires Typed(s) && CaptureInv(s)
    ensures forall d :: d in s.dispatches ==> !d.RaisedAtComplete?
  {
    forall d | d in s.dispatches ensures !d.RaisedAtComplete? {
      var i :| 0 <= i < |s.dispatches| && s.dispatches[i] == d;
      if d.Started() { assert CaptureOk(s.tasks[d.task], d); }
    }
  }

  // ----- Reply routing -----

  lemma ResolveKeepsOthers(s: State, l: nat, m: Message, i: nat)
    requires Typed(s) && UniqueInv(s) && l < |s.links| && i < |s.dispatches| && IsSend(s.dispatches[i], l, m.requestId)
    ensures var r := s.(links := s.links[l := s.links[l].(pending := s.links[l].pending[m.requestId := GotReply(m)])]);
            FutureIs(r, i, GotReply(m)) && OtherFuturesKept(s, r, i)
  {
    var r := s.(links := s.links[l := s.links[l].(pending := s.links[l].pending[m.requestId := GotReply(m)])]);
    forall j, f | j != i && FutureIs(s, j, f) ensures FutureIs(r, j, f) { SendsHaveDistinctIds(s, i, j); }
  }

  /** A reply that resolves anything resolves the send of exactly the attempt it names; every
      other suspended send keeps its future, even one of the same task on the same link. */
  lemma ReplyResolvesOneAttempt(s: State, l: nat, m: Message)
    requires Inv(s) && l < |s.links| && !Superseded(s, l) && !Handled(s, l, m)
    ensures !IsControlId(m.requestId)
    ensures exists i :: 0 <= i < |s.dispatches| && IsSend(s.dispatches[i], l, m.requestId)
              && FutureIs(DoReceive(s, l, m), i, GotReply(m)) && OtherFuturesKept(s, DoReceive(s, l, m), i)
  {
    assert HasSend(s, l, m.requestId);
    var i :| 0 <= i < |s.dispatches| && IsSend(s.dispatches[i], l, m.requestId);
    if IsControlId(m.requestId) {
      ControlIdsNameNoAttempt(s.dispatches[i].task, s.dispatches[i].attempt, m.requestId);
    }
    ResolveKeepsOthers(s, l, m, i);
  }

  // ----- The registry -----

  /** A recorded response belongs to a terminal task, says COMPLETED exactly for a success, and is
      of the final attempt; with honest workers its payload says so too. */
  ghost predicate RecordedRightly(s: State, t: string, honest: Option<Executor>) {
    && t in s.tasks && t in s.responses && s.tasks[t].Terminal() && Decides(s.tasks[t], s.responses[t])
    && IsOf(s.responses[t], t, s.tasks[t].attempt)
    && (honest.Some? ==> s.responses[t].Carries(t, s.tasks[t].attempt))
  }

  lemma RecordsAreRight(s: State, honest: Option<Executor>)
    requires RecordInv(s) && ReplyInv(s, honest)
    ensures forall t :: t in s.responses ==> RecordedRightly(s, t, honest)
  {
    forall t | t in s.responses ensures RecordedRightly(s, t, honest) { assert RecordOk(s, t, honest); }
  }

  lemma EverythingHolds(steps: seq<Step>, env: Env)
    requires IsRun(Init, steps, env)
    ensures Inv(Exec(Init, steps, env)) && ReplyInv(Exec(Init, steps, env), env.honest)
  {
    InitHolds();
    RunInv(Init, steps, env);
    RunReplies(Init, steps, env);
  }

  /** In any run, however it goes on, each task is recorded at most once and rightly. */
  lemma RegistryIsWriteOnce(before: seq<Step>, after: seq<Step>, env: Env)
    requires IsRun(Init, before, env) && IsRun(Exec(Init, before, env), after, env)
    ensures RegistryGrows(Exec(Init, before, env), Exec(Exec(Init, before, env), after, env))
    ensures forall t :: t in Exec(Exec(Init, before, env), after, env).responses ==>
              RecordedRightly(Exec(Exec(Init, before, env), after, env), t, env.honest)
  {
    var s := Exec(Init, before, env);
    EverythingHolds(before, env);
    RunInv(s, after, env);
    RunReplies(s, after, env);
    RunLater(s, after, env);
    RecordsAreRight(Exec(s, after, env), env.honest);
  }
}
