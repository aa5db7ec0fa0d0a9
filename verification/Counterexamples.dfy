/** Runs that show which promises fail without their assumption. */
module Counterexamples {
  import opened Entities
  import opened RequestIds
  import opened Protocol
  import opened Traces
  import opened Stranding
  import opened Ownership
  import opened WorkerLife
  import opened Supersession
  import opened Guarantees
  import opened Endings

  ghost predicate AsksNothing(env: Env) { env == ANY }

  /** `steps` is a run from the empty master to `s`, of which nothing is asked. */
  ghost predicate Reaches(steps: seq<Step>, s: State) {
    Typed(s) && forall env :: AsksNothing(env) ==> IsRun(Init, steps, env) && Exec(Init, steps, env) == s
  }

  ghost predicate Goes(s: State, step: Step, r: State) { Typed(s) && Enabled(s, step) && Apply(s, step) == r }

  lemma Take(s: State, steps: seq<Step>, step: Step, r: State) returns (more: seq<Step>)
    requires Reaches(steps, s) && Goes(s, step, r)
    ensures Reaches(more, r)
  {
    more := steps + [step];
    assert AsksNothing(ANY);
    ExtendRun(Init, steps, step, ANY);
  }

  // ----- A worker joins -----

  const NONE: Payload := OtherPayload([])

  function OneWorker(status: WorkerStatus, generation: nat): map<string, Worker> {
    map["w" := Worker("h", 1, status, generation)]
  }

  function Registration(w: string): Message { Message("req-1", Register(w, "h", 1)) }

  const ACCEPTED := Init.(links := [Link(None, Reading, map[])])
  const ACKING := Init.(links := [Link(None, AckingRegister("w"), map[])], workers := OneWorker(Idle, 1))
  const JOINED := Init.(
    workers := OneWorker(Idle, 1), links := [Link(Some("w"), Reading, map[])], connections := map["w" := 0])

  function Submitted(attempt: nat): Task { Task("ADD", NONE, Pending, None, attempt) }
  function Given(attempt: nat): Task { Task("ADD", NONE, Assigned, Some("w"), attempt) }
  function Begun(attempt: nat): Task { Task("ADD", NONE, Running, Some("w"), attempt) }

  lemma ReachNothing() returns (steps: seq<Step>)
    ensures Reaches(steps, Init)
  {
    steps := [];
  }

  lemma ReachAccepted() returns (steps: seq<Step>)
    ensures Reaches(steps, ACCEPTED)
  {
    steps := ReachNothing();
    steps := Take(Init, steps, Accept, ACCEPTED);
  }

  lemma ReachAcking() returns (steps: seq<Step>)
    ensures Reaches(steps, ACKING)
  {
    steps := ReachAccepted();
    steps := Take(ACCEPTED, steps, Receive(0, Registration("w")), ACKING);
  }

  lemma ReachJoined() returns (steps: seq<Step>)
    ensures Reaches(steps, JOINED)
  {
    steps := ReachAcking();
    steps := Take(ACKING, steps, FinishAck(0), JOINED);
  }

  const ONE_SUBMITTED := JOINED.(tasks := map["t" := Submitted(0)])

  lemma ReachOneSubmitted() returns (steps: seq<Step>)
    ensures Reaches(steps, ONE_SUBMITTED)
  {
    steps := ReachJoined();
    steps := Take(JOINED, steps, SubmitTask("t", "ADD", NONE), ONE_SUBMITTED);
  }

  // ----- One connection, two ids -----

  const TWO_WORKERS := map["w" := Worker("h", 1, Idle, 1), "v" := Worker("h", 1, Idle, 1)]
  const ACKING_SECOND := JOINED.(workers := TWO_WORKERS, links := [Link(Some("w"), AckingRegister("v"), map[])])
  const TWO_IDS := JOINED.(
    workers := TWO_WORKERS, links := [Link(Some("v"), Reading, map[])], connections := map["w" := 0, "v" := 0])

  /** The connection went away, but is still installed for the first id. */
  const STALE := JOINED.(workers := TWO_WORKERS, links := [Link(Some("v"), Exited, map[])])

  const ASKED_OF_STALE := STALE.(tasks := map["t" := Submitted(0)])
  const GIVEN_TO_STALE := STALE.(
    tasks := map["t" := Given(1)], dispatches := [Spawned("t")],
    workers := map["w" := Worker("h", 1, Busy, 1), "v" := Worker("h", 1, Idle, 1)])

  /** The request id of the first attempt of "t". */
  const FIRST := AttemptRequestId("t", 1)

  const SENT_TO_STALE := GIVEN_TO_STALE.(
    tasks := map["t" := Begun(1)], dispatches := [Awaiting("t", "w", 1, 0, false)],
    links := [Link(Some("v"), Exited, map[FIRST := Unresolved])])

  lemma ReachAckingSecond() returns (steps: seq<Step>)
    ensures Reaches(steps, ACKING_SECOND)
  {
    steps := ReachJoined();
    steps := Take(JOINED, steps, Receive(0, Registration("v")), ACKING_SECOND);
  }

  lemma ReachTwoIds() returns (steps: seq<Step>)
    ensures Reaches(steps, TWO_IDS)
  {
    steps := ReachAckingSecond();
    steps := Take(ACKING_SECOND, steps, FinishAck(0), TWO_IDS);
  }

  lemma ReachStale() returns (steps: seq<Step>)
    ensures Reaches(steps, STALE)
  {
    steps := ReachTwoIds();
    steps := Take(TWO_IDS, steps, Disconnect(0), STALE);
  }

  lemma ReachAskedOfStale() returns (steps: seq<Step>)
    ensures Reaches(steps, ASKED_OF_STALE)
  {
    steps := ReachStale();
    steps := Take(STALE, steps, SubmitTask("t", "ADD", NONE), ASKED_OF_STALE);
  }

  lemma ReachGivenToStale() returns (steps: seq<Step>)
    ensures Reaches(steps, GIVEN_TO_STALE)
  {
    steps := ReachAskedOfStale();
    steps := Take(ASKED_OF_STALE, steps, AssignTask("t", "w"), GIVEN_TO_STALE);
  }

  lemma ReachSentToStale() returns (steps: seq<Step>)
    ensures Reaches(steps, SENT_TO_STALE)
  {
    steps := ReachGivenToStale();
    steps := Take(GIVEN_TO_STALE, steps, StartDispatch(0), SENT_TO_STALE);
  }

  /** Running, and no dispatch of it will ever be woken. */
  ghost predicate Orphaned(s: State, t: string) {
    t in s.tasks && s.tasks[t].status.Running? && forall i :: !CarriesOut(s, i, t)
  }

  /** Without one id per link, a task can run on a connection whose handler is gone: nothing
      will ever settle its send. */
  lemma RunningOnADeadLink() returns (steps: seq<Step>, s: State)
    ensures Reaches(steps, s) && exists t :: Orphaned(s, t)
  {
    steps := ReachSentToStale();
    s := SENT_TO_STALE;
    assert Orphaned(s, "t");
  }

  // ----- A dispatch dies -----

  const GIVEN := JOINED.(tasks := map["t" := Given(1)], workers := OneWorker(Busy, 1), dispatches := [Spawned("t")])
  const SENDING := GIVEN.(
    tasks := map["t" := Begun(1)], dispatches := [Awaiting("t", "w", 1, 0, false)],
    links := [Link(Some("w"), Reading, map[FIRST := Unresolved])])
  const SENT := SENDING.(dispatches := [Awaiting("t", "w", 1, 0, true)])

  /** A TASK_RESULT that says nothing about how the task went. */
  const STATUSLESS := Message(FIRST, StatuslessResult(Some("t")))

  const ANSWERED := SENT.(links := [Link(Some("w"), Reading, map[FIRST := GotReply(STATUSLESS)])])
  const LEFT_ALONE := GIVEN.(tasks := map["t" := Begun(1)], dispatches := [RaisedInFlight("t", 1)])

  lemma ReachGiven() returns (steps: seq<Step>)
    ensures Reaches(steps, GIVEN)
  {
    steps := ReachOneSubmitted();
    steps := Take(ONE_SUBMITTED, steps, AssignTask("t", "w"), GIVEN);
  }

  lemma ReachSending() returns (steps: seq<Step>)
    ensures Reaches(steps, SENDING)
  {
    steps := ReachGiven();
    steps := Take(GIVEN, steps, StartDispatch(0), SENDING);
  }

  lemma ReachSent() returns (steps: seq<Step>)
    ensures Reaches(steps, SENT)
  {
    steps := ReachSending();
    steps := Take(SENDING, steps, SendDone(0), SENT);
  }

  lemma ReachAnswered() returns (steps: seq<Step>)
    ensures Reaches(steps, ANSWERED)
  {
    steps := ReachSent();
    assert SENT.links[0].pending[FIRST := GotReply(STATUSLESS)] == ANSWERED.links[0].pending;
    steps := Take(SENT, steps, Receive(0, STATUSLESS), ANSWERED);
  }

  lemma LeftAloneIsStranded()
    ensures Stranded(LEFT_ALONE, "t")
  {
  }

  lemma RaisingGoes()
    ensures Goes(SENDING, SendRaises(0), LEFT_ALONE)
  {
  }

  lemma ResumingGoes()
    ensures Goes(ANSWERED, ResumeWithReply(0), LEFT_ALONE)
  {
    assert HasReply(ANSWERED, 0) && ReplyOf(ANSWERED, 0) == STATUSLESS;
  }

  /** A send that raises what nothing catches leaves its task RUNNING with no dispatch. */
  lemma SendDies() returns (steps: seq<Step>, s: State)
    ensures Reaches(steps, s) && exists t :: Stranded(s, t)
  {
    steps := ReachSending();
    RaisingGoes();
    steps := Take(SENDING, steps, SendRaises(0), LEFT_ALONE);
    s := LEFT_ALONE;
    LeftAloneIsStranded();
  }

  /** So does a TASK_RESULT whose payload has no status, though it passes validation. */
  lemma StatuslessReplyStrands() returns (steps: seq<Step>, s: State)
    ensures Reaches(steps, s) && exists t :: Stranded(s, t)
  {
    steps := ReachAnswered();
    ResumingGoes();
    steps := Take(ANSWERED, steps, ResumeWithReply(0), LEFT_ALONE);
    s := LEFT_ALONE;
    LeftAloneIsStranded();
  }

  // ----- An older registration wins -----

  const FAILED_ONCE := JOINED.(workers := OneWorker(WorkerFailed, 1))
  const RETURNING := [Link(Some("w"), AckingRegister("w"), map[])]
  const REREGISTERING := JOINED.(workers := OneWorker(Idle, 2), links := RETURNING)
  const FAILED_TWICE := REREGISTERING.(workers := OneWorker(WorkerFailed, 2))
  const RIVAL := FAILED_TWICE.(links := RETURNING + [Link(None, Reading, map[])])
  const RIVAL_ACKING := FAILED_TWICE.(
    workers := OneWorker(Idle, 3), links := RETURNING + [Link(None, AckingRegister("w"), map[])])
  const RIVAL_INSTALLED := FAILED_TWICE.(
    workers := OneWorker(Idle, 3), links := RETURNING + [Link(Some("w"), Reading, map[])], connections := map["w" := 1])

  lemma ReachFailedOnce() returns (steps: seq<Step>)
    ensures Reaches(steps, FAILED_ONCE)
  {
    steps := ReachJoined();
    steps := Take(JOINED, steps, HeartbeatTimeout({"w"}), FAILED_ONCE);
  }

  lemma ReachReregistering() returns (steps: seq<Step>)
    ensures Reaches(steps, REREGISTERING)
  {
    steps := ReachFailedOnce();
    steps := Take(FAILED_ONCE, steps, Receive(0, Registration("w")), REREGISTERING);
  }

  lemma ReachFailedTwice() returns (steps: seq<Step>)
    ensures Reaches(steps, FAILED_TWICE)
  {
    steps := ReachReregistering();
    steps := Take(REREGISTERING, steps, HeartbeatTimeout({"w"}), FAILED_TWICE);
  }

  lemma ReachRival() returns (steps: seq<Step>)
    ensures Reaches(steps, RIVAL)
  {
    steps := ReachFailedTwice();
    steps := Take(FAILED_TWICE, steps, Accept, RIVAL);
  }

  lemma ReachRivalAcking() returns (steps: seq<Step>)
    ensures Reaches(steps, RIVAL_ACKING)
  {
    steps := ReachRival();
    steps := Take(RIVAL, steps, Receive(1, Registration("w")), RIVAL_ACKING);
  }

  lemma ReachRivalInstalled() returns (steps: seq<Step>)
    ensures Reaches(steps, RIVAL_INSTALLED)
  {
    steps := ReachRivalAcking();
    steps := Take(RIVAL_ACKING, steps, FinishAck(1), RIVAL_INSTALLED);
  }

  /** A connection replaced while it is acknowledging a REGISTER of an older generation installs
      itself over the newer one; the step is calm and installs no second id. */
  lemma OlderRegistrationWins() returns (steps: seq<Step>, s: State)
    ensures Reaches(steps, s) && OutOfDate(s, 0) && "w" in s.connections && s.connections["w"] == 1
    ensures Enabled(s, FinishAck(0)) && StaleAck(s, FinishAck(0)) && Calm(s, FinishAck(0)) && OneIdPerLink(s, FinishAck(0))
    ensures var r := Apply(s, FinishAck(0)); "w" in r.connections && r.connections["w"] == 0 && OutOfDate(r, 1)
  {
    steps := ReachRivalInstalled();
    s := RIVAL_INSTALLED;
  }

  // ----- A stopped worker is released -----

  const LINK0 := Link(Some("w"), Reading, map[])
  const LINK0_SENDING := Link(Some("w"), Reading, map[FIRST := Unresolved])
  const REPLY := Message(FIRST, TaskResult("t", 1, Success(Null)))
  const LINK0_ANSWERED := Link(Some("w"), Reading, map[FIRST := GotReply(REPLY)])
  const LINK1_ACKING := Link(None, AckingRegister("w"), map[])

  const SECOND := FAILED_ONCE.(links := [LINK0, Link(None, Reading, map[])])
  const SECOND_ACKING := SECOND.(links := [LINK0, LINK1_ACKING], workers := OneWorker(Idle, 2))
  const SECOND_ASKED := SECOND_ACKING.(tasks := map["t" := Submitted(0)])
  const SECOND_GIVEN := SECOND_ACKING.(
    tasks := map["t" := Given(1)], workers := OneWorker(Busy, 2), dispatches := [Spawned("t")])
  const SECOND_SENDING := SECOND_GIVEN.(
    tasks := map["t" := Begun(1)], dispatches := [Awaiting("t", "w", 1, 0, false)], links := [LINK0_SENDING, LINK1_ACKING])
  const SECOND_SENT := SECOND_SENDING.(dispatches := [Awaiting("t", "w", 1, 0, true)])
  const SECOND_ANSWERED := SECOND_SENT.(links := [LINK0_ANSWERED, LINK1_ACKING])
  const SECOND_JOINED := SECOND_SENT.(
    links := [LINK0_ANSWERED, Link(Some("w"), Reading, map[])], connections := map["w" := 1])
  const SECOND_DRAINING := SECOND_JOINED.(
    workers := OneWorker(Draining, 2), links := [LINK0_ANSWERED, Link(Some("w"), AckingShutdown, map[])])
  const SECOND_STOPPED := SECOND_JOINED.(
    workers := OneWorker(Stopped, 2), links := [LINK0_ANSWERED, Link(Some("w"), Exited, map[])], connections := map[])

  lemma SecondIsTyped()
    ensures Typed(SECOND_ANSWERED)
  {
  }

  lemma SecondInstalls()
    ensures Typed(SECOND_ANSWERED) && DoFinishAck(SECOND_ANSWERED, 1) == SECOND_JOINED
  {
    SecondIsTyped();
    assert SECOND_ANSWERED.connections["w" := 1] == SECOND_JOINED.connections;
  }

  lemma SecondRevives()
    ensures Typed(SECOND_STOPPED) && HasReply(SECOND_STOPPED, 0) && ReplyOf(SECOND_STOPPED, 0) == REPLY
    ensures Current(SECOND_STOPPED, SECOND_STOPPED.dispatches[0])
    ensures var r := DoResumeReply(SECOND_STOPPED, 0, REPLY);
            r.workers == OneWorker(Idle, 2) && r.connections == map[]
  {
  }

  lemma SecondExits()
    ensures Typed(SECOND_DRAINING) && Exit(SECOND_DRAINING, 1) == SECOND_STOPPED
  {
    assert FailPending(map[]) == map[];
  }

  lemma ReachSecond() returns (steps: seq<Step>)
    ensures Reaches(steps, SECOND)
  {
    steps := ReachFailedOnce();
    steps := Take(FAILED_ONCE, steps, Accept, SECOND);
  }

  lemma ReachSecondAcking() returns (steps: seq<Step>)
    ensures Reaches(steps, SECOND_ACKING)
  {
    steps := ReachSecond();
    steps := Take(SECOND, steps, Receive(1, Registration("w")), SECOND_ACKING);
  }

  lemma ReachSecondAsked() returns (steps: seq<Step>)
    ensures Reaches(steps, SECOND_ASKED)
  {
    steps := ReachSecondAcking();
    steps := Take(SECOND_ACKING, steps, SubmitTask("t", "ADD", NONE), SECOND_ASKED);
  }

  lemma ReachSecondGiven() returns (steps: seq<Step>)
    ensures Reaches(steps, SECOND_GIVEN)
  {
    steps := ReachSecondAsked();
    steps := Take(SECOND_ASKED, steps, AssignTask("t", "w"), SECOND_GIVEN);
  }

  lemma ReachSecondSending() returns (steps: seq<Step>)
    ensures Reaches(steps, SECOND_SENDING)
  {
    steps := ReachSecondGiven();
    steps := Take(SECOND_GIVEN, steps, StartDispatch(0), SECOND_SENDING);
  }

  lemma ReachSecondSent() returns (steps: seq<Step>)
    ensures Reaches(steps, SECOND_SENT)
  {
    steps := ReachSecondSending();
    steps := Take(SECOND_SENDING, steps, SendDone(0), SECOND_SENT);
  }

  lemma ReachSecondAnswered() returns (steps: seq<Step>)
    ensures Reaches(steps, SECOND_ANSWERED)
  {
    steps := ReachSecondSent();
    assert LINK0_SENDING.pending[FIRST := GotReply(REPLY)] == LINK0_ANSWERED.pending;
    steps := Take(SECOND_SENT, steps, Receive(0, REPLY), SECOND_ANSWERED);
  }

  lemma ReachSecondJoined() returns (steps: seq<Step>)
    ensures Reaches(steps, SECOND_JOINED)
  {
    steps := ReachSecondAnswered();
    SecondInstalls();
    steps := Take(SECOND_ANSWERED, steps, FinishAck(1), SECOND_JOINED);
  }

  lemma ReachSecondDraining() returns (steps: seq<Step>)
    ensures Reaches(steps, SECOND_DRAINING)
  {
    steps := ReachSecondJoined();
    steps := Take(SECOND_JOINED, steps, Receive(1, Message("req-2", Shutdown("w"))), SECOND_DRAINING);
  }

  lemma ReachSecondStopped() returns (steps: seq<Step>)
    ensures Reaches(steps, SECOND_STOPPED)
  {
    steps := ReachSecondDraining();
    SecondExits();
    steps := Take(SECOND_DRAINING, steps, FinishAck(1), SECOND_STOPPED);
  }

  /** A worker that was stopped on its new connection while the reply of a task sent on its old one
      was waiting is released when the reply is taken up: it is IDLE again in the same generation,
      with no connection. */
  lemma StoppedWorkerIsRevived() returns (steps: seq<Step>, s: State)
    ensures Reaches(steps, s) && Enabled(s, ResumeWithReply(0)) && RevivesStopped(s, ResumeWithReply(0))
    ensures var r := Apply(s, ResumeWithReply(0));
            && "w" in s.workers && s.workers["w"].status.Stopped? && "w" in r.workers && "w" !in r.connections
            && r.workers["w"] == s.workers["w"].(status := Idle)
  {
    steps := ReachSecondStopped();
    s := SECOND_STOPPED;
    SecondRevives();
  }


  // ----- Losing a task again and again -----

  predicate AllSpawned(ds: seq<Dispatch>) { forall i :: 0 <= i < |ds| ==> ds[i] == Spawned("t") }

  /** The worker has rejoined after losing the task `a` times before its dispatch started. */
  function Lost(a: nat, ds: seq<Dispatch>): State {
    JOINED.(tasks := map["t" := Submitted(a)], workers := OneWorker(Idle, a + 1), dispatches := ds)
  }

  function Held(a: nat, ds: seq<Dispatch>): State {
    JOINED.(tasks := map["t" := Given(a + 1)], workers := OneWorker(Busy, a + 1), dispatches := ds + [Spawned("t")])
  }

  function Dropped(a: nat, ds: seq<Dispatch>): State {
    JOINED.(tasks := map["t" := RequeueTask(Given(a + 1))], workers := OneWorker(WorkerFailed, a + 1), dispatches := ds + [Spawned("t")])
  }

  function Rejoining(a: nat, ds: seq<Dispatch>): State { Lost(a + 1, ds + [Spawned("t")]).(links := RETURNING) }

  lemma Hold(a: nat, ds: seq<Dispatch>, before: seq<Step>) returns (steps: seq<Step>)
    requires Reaches(before, Lost(a, ds)) && AllSpawned(ds)
    ensures Reaches(steps, Held(a, ds))
  {
    steps := Take(Lost(a, ds), before, AssignTask("t", "w"), Held(a, ds));
  }

  lemma Drop(a: nat, ds: seq<Dispatch>, before: seq<Step>) returns (steps: seq<Step>)
    requires Reaches(before, Held(a, ds)) && AllSpawned(ds)
    ensures Reaches(steps, Dropped(a, ds))
  {
    steps := Take(Held(a, ds), before, HeartbeatTimeout({"w"}), Dropped(a, ds));
  }

  lemma Reregister(a: nat, ds: seq<Dispatch>, before: seq<Step>) returns (steps: seq<Step>)
    requires Reaches(before, Dropped(a, ds)) && AllSpawned(ds) && a + 1 < MAX_TASK_ATTEMPTS
    ensures Reaches(steps, Rejoining(a, ds))
  {
    steps := Take(Dropped(a, ds), before, Receive(0, Registration("w")), Rejoining(a, ds));
  }

  lemma Reinstall(a: nat, ds: seq<Dispatch>, before: seq<Step>) returns (steps: seq<Step>)
    requires Reaches(before, Rejoining(a, ds)) && AllSpawned(ds)
    ensures Reaches(steps, Lost(a + 1, ds + [Spawned("t")]))
  {
    steps := Take(Rejoining(a, ds), before, FinishAck(0), Lost(a + 1, ds + [Spawned("t")]));
  }

  lemma Lose(a: nat, ds: seq<Dispatch>, before: seq<Step>) returns (steps: seq<Step>)
    requires Reaches(before, Lost(a, ds)) && AllSpawned(ds)
    ensures Reaches(steps, Dropped(a, ds))
  {
    steps := Hold(a, ds, before);
    steps := Drop(a, ds, steps);
  }

  lemma LoseAndRejoin(a: nat, b: nat, ds: seq<Dispatch>, more: seq<Dispatch>, before: seq<Step>) returns (steps: seq<Step>)
    requires Reaches(before, Lost(a, ds)) && AllSpawned(ds) && b == a + 1 < MAX_TASK_ATTEMPTS && more == ds + [Spawned("t")]
    ensures Reaches(steps, Lost(b, more)) && AllSpawned(more)
  {
    steps := Lose(a, ds, before);
    steps := Reregister(a, ds, steps);
    steps := Reinstall(a, ds, steps);
  }

  lemma ReachLost() returns (steps: seq<Step>)
    ensures Reaches(steps, Lost(0, []))
  {
    steps := ReachOneSubmitted();
    assert ONE_SUBMITTED == Lost(0, []);
  }

  lemma ReachLostOnce() returns (ds: seq<Dispatch>, steps: seq<Step>)
    ensures AllSpawned(ds) && Reaches(steps, Lost(1, ds))
  {
    steps := ReachLost();
    ds := [] + [Spawned("t")];
    steps := LoseAndRejoin(0, 1, [], ds, steps);
  }

  lemma ReachLostTwice() returns (ds: seq<Dispatch>, steps: seq<Step>)
    ensures AllSpawned(ds) && Reaches(steps, Lost(2, ds))
  {
    var once;
    once, steps := ReachLostOnce();
    ds := once + [Spawned("t")];
    steps := LoseAndRejoin(1, 2, once, ds, steps);
  }

  /** A task can end with no response ever recorded: the heartbeat monitor gives up its third
      attempt, so whoever waits for it waits in vain. */
  lemma GivenUpInSilence() returns (steps: seq<Step>, s: State)
    ensures Reaches(steps, s) && exists t :: Silent(s, t)
  {
    var ds;
    ds, steps := ReachLostTwice();
    steps := Lose(2, ds, steps);
    s := Dropped(2, ds);
    assert Silent(s, "t");
  }

  // ----- One worker, two tasks -----

  /** A second task is there when the first is assigned once more. */
  function Both(a: nat, ds: seq<Dispatch>): State {
    Lost(a, ds).(tasks := map["t" := Submitted(a), "u" := Submitted(0)])
  }

  /** The first task is assigned; its dispatch has not started. */
  function BusyWithT(a: nat, ds: seq<Dispatch>): State {
    Both(a, ds).(tasks := map["t" := Given(a + 1), "u" := Submitted(0)], workers := OneWorker(Busy, a + 1),
                 dispatches := ds + [Spawned("t")])
  }

  function DrainingWithT(a: nat, ds: seq<Dispatch>): State {
    BusyWithT(a, ds).(workers := OneWorker(Draining, a + 1), links := [Link(Some("w"), AckingShutdown, map[])])
  }

  /** The worker has asked to stop and was let go; the task still names it. */
  function StoppedWithT(a: nat, ds: seq<Dispatch>): State {
    BusyWithT(a, ds).(workers := OneWorker(Stopped, a + 1), links := [Link(Some("w"), Exited, map[])], connections := map[])
  }

  function Reconnected(a: nat, ds: seq<Dispatch>): State {
    StoppedWithT(a, ds).(links := [Link(Some("w"), Exited, map[]), Link(None, Reading, map[])])
  }

  function RegisteredAgain(a: nat, ds: seq<Dispatch>): State {
    StoppedWithT(a, ds).(links := [Link(Some("w"), Exited, map[]), LINK1_ACKING], workers := OneWorker(Idle, a + 2))
  }

  function TwoGiven(a: nat, ds: seq<Dispatch>): State {
    RegisteredAgain(a, ds).(tasks := map["t" := Given(a + 1), "u" := Given(1)], workers := OneWorker(Busy, a + 2),
                            dispatches := ds + [Spawned("t")] + [Spawned("u")])
  }

  lemma SubmitSecond(a: nat, ds: seq<Dispatch>, before: seq<Step>) returns (steps: seq<Step>)
    requires Reaches(before, Lost(a, ds)) && AllSpawned(ds)
    ensures Reaches(steps, Both(a, ds))
  {
    steps := Take(Lost(a, ds), before, SubmitTask("u", "ADD", NONE), Both(a, ds));
  }

  lemma HoldFirst(a: nat, ds: seq<Dispatch>, before: seq<Step>) returns (steps: seq<Step>)
    requires Reaches(before, Both(a, ds)) && AllSpawned(ds)
    ensures Reaches(steps, BusyWithT(a, ds))
  {
    steps := Take(Both(a, ds), before, AssignTask("t", "w"), BusyWithT(a, ds));
  }

  lemma AskToStop(a: nat, ds: seq<Dispatch>, before: seq<Step>) returns (steps: seq<Step>)
    requires Reaches(before, BusyWithT(a, ds)) && AllSpawned(ds)
    ensures Reaches(steps, DrainingWithT(a, ds))
  {
    steps := Take(BusyWithT(a, ds), before, Receive(0, Message("req-2", Shutdown("w"))), DrainingWithT(a, ds));
  }

  lemma LetGo(a: nat, ds: seq<Dispatch>, before: seq<Step>) returns (steps: seq<Step>)
    requires Reaches(before, DrainingWithT(a, ds)) && AllSpawned(ds)
    ensures Reaches(steps, StoppedWithT(a, ds))
  {
    steps := Take(DrainingWithT(a, ds), before, FinishAck(0), StoppedWithT(a, ds));
  }

  lemma Reconnect(a: nat, ds: seq<Dispatch>, before: seq<Step>) returns (steps: seq<Step>)
    requires Reaches(before, StoppedWithT(a, ds)) && AllSpawned(ds)
    ensures Reaches(steps, Reconnected(a, ds))
  {
    steps := Take(StoppedWithT(a, ds), before, Accept, Reconnected(a, ds));
  }

  lemma RegisterAgain(a: nat, ds: seq<Dispatch>, before: seq<Step>) returns (steps: seq<Step>)
    requires Reaches(before, Reconnected(a, ds)) && AllSpawned(ds)
    ensures Reaches(steps, RegisteredAgain(a, ds))
  {
    steps := Take(Reconnected(a, ds), before, Receive(1, Registration("w")), RegisteredAgain(a, ds));
  }

  lemma HoldSecond(a: nat, ds: seq<Dispatch>, before: seq<Step>) returns (steps: seq<Step>)
    requires Reaches(before, RegisteredAgain(a, ds)) && AllSpawned(ds)
    ensures Reaches(steps, TwoGiven(a, ds))
  {
    steps := Take(RegisteredAgain(a, ds), before, AssignTask("u", "w"), TwoGiven(a, ds));
  }

  lemma StopFirst(a: nat, ds: seq<Dispatch>, before: seq<Step>) returns (steps: seq<Step>)
    requires Reaches(before, Lost(a, ds)) && AllSpawned(ds)
    ensures Reaches(steps, StoppedWithT(a, ds))
  {
    steps := SubmitSecond(a, ds, before);
    steps := HoldFirst(a, ds, steps);
    steps := AskToStop(a, ds, steps);
    steps := LetGo(a, ds, steps);
  }

  lemma Share(a: nat, ds: seq<Dispatch>, before: seq<Step>) returns (steps: seq<Step>)
    requires Reaches(before, Lost(a, ds)) && AllSpawned(ds)
    ensures Reaches(steps, TwoGiven(a, ds))
  {
    steps := StopFirst(a, ds, before);
    steps := Reconnect(a, ds, steps);
    steps := RegisterAgain(a, ds, steps);
    steps := HoldSecond(a, ds, steps);
  }

  /** Without calm, one worker can hold two tasks: it registers again while its first task,
      assigned before it was stopped, is still in flight. */
  lemma TwoTasksOnOneWorker() returns (steps: seq<Step>, s: State)
    ensures Reaches(steps, s) && !OneOwner(s)
  {
    steps := ReachLost();
    steps := Share(0, [], steps);
    s := TwoGiven(0, []);
    assert s.tasks["t"].OwnedBy("w") && s.tasks["u"].OwnedBy("w");
  }

  /** And then one task can be given up in silence by the other's dispatch, which finds no
      connection and loses the worker both share. */
  lemma GivenUpByItsNeighbour() returns (steps: seq<Step>, s: State, step: Step)
    ensures Reaches(steps, s) && Enabled(s, step) && GivenUpByAnother(s, step, "t")
  {
    var ds;
    ds, steps := ReachLostTwice();
    steps := Share(2, ds, steps);
    s := TwoGiven(2, ds);
    step := StartDispatch(|ds| + 1);
    assert s.dispatches[|ds| + 1] == Spawned("u");
  }
}
