/** What a job that waits on the master gets back. */
module EndToEnd {
  import opened Entities
  import opened Protocol
  import opened Invariant
  import opened Traces
  import opened Replies
  import opened Guarantees
  import opened Drain
  import opened Execution
  import opened Partitioning
  import opened Jobs
  import opened MapReduce

  // ----- A wait -----

  /** With honest workers, the responses `wait_for_tasks` returned answer their own tasks only,
      and a task counts as won exactly when it is COMPLETED. */
  lemma WaitAnswers(steps: seq<Step>, env: Env, k: nat, n: nat)
    requires IsRun(Init, steps, env) && env.honest.Some? && k < |Exec(Init, steps, env).waiters|
    requires Exec(Init, steps, env).waiters[k].Finished? && n < |Exec(Init, steps, env).waiters[k].ids|
    ensures var s := Exec(Init, steps, env);
            var t := s.waiters[k].ids[n];
            var results := s.waiters[k].results;
            && t in s.tasks
            && Answered(results, t, env.honest.value(s.tasks[t].taskType, s.tasks[t].payload))
            && (Won(results, t).Some? <==> s.tasks[t].status.Completed?)
  {
    EverythingHolds(steps, env);
    FitWaitAnswers(Exec(Init, steps, env), env, k, n);
  }

  /** What holds in every state of every run (`EverythingHolds`), and so can be asked of any. */
  ghost predicate Fit(s: State, env: Env) { Inv(s) && ReplyInv(s, env.honest) }

  lemma FitWaitAnswers(s: State, env: Env, k: nat, n: nat)
    requires Fit(s, env) && env.honest.Some? && k < |s.waiters|
    requires s.waiters[k].Finished? && n < |s.waiters[k].ids|
    ensures var t := s.waiters[k].ids[n];
            var results := s.waiters[k].results;
            && t in s.tasks
            && Answered(results, t, env.honest.value(s.tasks[t].taskType, s.tasks[t].payload))
            && (Won(results, t).Some? <==> s.tasks[t].status.Completed?)
  {
    WaitedIsRecorded(s, env.honest.value, k);
    var w := s.waiters[k];
    RecordedAnswers(s, env.honest.value, w.ids, w.results, n);
  }

  ghost predicate Registered(s: State, exec: Executor, t: string, r: Response) {
    && t in s.tasks && Decides(s.tasks[t], r) && r.TaskId() == Some(t)
    && Faithful(s.tasks[t], t, s.tasks[t].attempt, r, Some(exec))
  }

  lemma WaitedIsRecorded(s: State, exec: Executor, k: nat)
    requires Inv(s) && ReplyInv(s, Some(exec)) && k < |s.waiters| && s.waiters[k].Finished?
    ensures |s.waiters[k].results| == |s.waiters[k].ids|
    ensures forall n :: 0 <= n < |s.waiters[k].ids| ==>
              Registered(s, exec, s.waiters[k].ids[n], s.waiters[k].results[n])
  {
    assert WaiterOk(s, s.waiters[k]);
    forall n | 0 <= n < |s.waiters[k].ids| ensures Registered(s, exec, s.waiters[k].ids[n], s.waiters[k].results[n]) {
      assert RecordOk(s, s.waiters[k].ids[n], Some(exec));
    }
  }

  lemma RecordedAnswers(s: State, exec: Executor, ids: seq<string>, results: seq<Response>, n: nat)
    requires |results| == |ids| && n < |ids| && ids[n] in s.tasks
    requires forall m :: 0 <= m < |ids| ==> Registered(s, exec, ids[m], results[m])
    ensures var t := ids[n];
            && Answered(results, t, exec(s.tasks[t].taskType, s.tasks[t].payload))
            && (Won(results, t).Some? <==> s.tasks[t].status.Completed?)
  {
    var t := ids[n];
    forall p | 0 <= p < |results| && results[p].TaskId() == Some(t)
      ensures results[p].Unreachable? || Carried(results[p]) == Some(exec(s.tasks[t].taskType, s.tasks[t].payload))
    {
      assert Registered(s, exec, ids[p], results[p]);
    }
    IndexIsLast(results, t);
    assert Registered(s, exec, ids[n], results[n]);
    var p :| IsLastOf(results, t, p) && Index(results)[t] == results[p];
    assert Registered(s, exec, ids[p], results[p]);
  }

  // ----- Submitting in a run -----

  lemma SubmissionsKeepTyped(s: State, ids: seq<string>, taskType: string, payloads: seq<Payload>)
    requires Typed(s) && |ids| == |payloads|
    ensures Typed(s.(tasks := AddTasks(s.tasks, ids, taskType, payloads)))
  {
    forall t | t in s.tasks ensures t in AddTasks(s.tasks, ids, taskType, payloads) {
      AddFirstKeys(s.tasks, ids, taskType, payloads, |ids|, t);
    }
  }

  /** The state with these tasks submitted. */
  ghost function Submitted(s: State, ids: seq<string>, taskType: string, payloads: seq<Payload>): (r: State)
    requires Typed(s) && |ids| == |payloads|
    ensures Typed(r) && r == s.(tasks := AddTasks(s.tasks, ids, taskType, payloads))
  {
    SubmissionsKeepTyped(s, ids, taskType, payloads);
    s.(tasks := AddTasks(s.tasks, ids, taskType, payloads))
  }

  ghost function SubmitSteps(ids: seq<string>, taskType: string, payloads: seq<Payload>, n: nat): seq<Step>
    requires n <= |ids| == |payloads|
  {
    if n == 0 then [] else SubmitSteps(ids, taskType, payloads, n - 1) + [SubmitTask(ids[n - 1], taskType, payloads[n - 1])]
  }

  lemma SubmitIsAStep(s: State, t: string, taskType: string, payload: Payload, env: Env)
    requires Typed(s) && |t| > 0 && |taskType| > 0 && t !in s.tasks
    ensures Enabled(s, SubmitTask(t, taskType, payload)) && Obeys(s, SubmitTask(t, taskType, payload), env)
    ensures Apply(s, SubmitTask(t, taskType, payload)) == s.(tasks := s.tasks[t := Task(taskType, payload, Pending, None, 0)])
  {
  }

  ghost predicate LeadsTo(s: State, steps: seq<Step>, env: Env, q: State) {
    Typed(s) && IsRun(s, steps, env) && Exec(s, steps, env) == q
  }

  lemma SubmitExtends(s: State, steps: seq<Step>, q: State, t: string, taskType: string, payload: Payload, env: Env)
    requires LeadsTo(s, steps, env, q) && |t| > 0 && |taskType| > 0 && t !in q.tasks
    ensures LeadsTo(s, steps + [SubmitTask(t, taskType, payload)], env, q.(tasks := q.tasks[t := Task(taskType, payload, Pending, None, 0)]))
  {
    SubmitIsAStep(q, t, taskType, payload, env);
    ExtendRun(s, steps, SubmitTask(t, taskType, payload), env);
  }

  /** Submitting accepted tasks one after another is a run. */
  lemma {:induction false} SubmissionIsARun(s: State, ids: seq<string>, taskType: string, payloads: seq<Payload>, env: Env, n: nat)
    requires Typed(s) && n <= |ids| == |payloads| && |taskType| > 0 && Acceptable(s.tasks, ids, n)
    ensures LeadsTo(s, SubmitSteps(ids, taskType, payloads, n), env, s.(tasks := AddFirst(s.tasks, ids, taskType, payloads, n)))
  {
    if n == 0 {
      StayingIsARun(s, env);
    } else {
      SubmissionIsARun(s, ids, taskType, payloads, env, n - 1);
      OneMoreAcceptable(s.tasks, ids, taskType, payloads, n - 1);
      NextSubmission(s, ids, taskType, payloads, env, n - 1);
    }
  }

  lemma StayingIsARun(s: State, env: Env)
    requires Typed(s)
    ensures LeadsTo(s, [], env, s)
  {
  }

  lemma NextSubmission(s: State, ids: seq<string>, taskType: string, payloads: seq<Payload>, env: Env, n: nat)
    requires Typed(s) && n < |ids| == |payloads| && |taskType| > 0
    requires |ids[n]| > 0 && ids[n] !in AddFirst(s.tasks, ids, taskType, payloads, n)
    requires LeadsTo(s, SubmitSteps(ids, taskType, payloads, n), env, s.(tasks := AddFirst(s.tasks, ids, taskType, payloads, n)))
    ensures LeadsTo(s, SubmitSteps(ids, taskType, payloads, n + 1), env, s.(tasks := AddFirst(s.tasks, ids, taskType, payloads, n + 1)))
  {
    var q := s.(tasks := AddFirst(s.tasks, ids, taskType, payloads, n));
    SubmitExtends(s, SubmitSteps(ids, taskType, payloads, n), q, ids[n], taskType, payloads[n], env);
  }

  lemma RunKeepsFit(s: State, steps: seq<Step>, env: Env)
    requires Fit(s, env) && IsRun(s, steps, env)
    ensures Fit(Exec(s, steps, env), env) && Later(s, Exec(s, steps, env))
  {
    RunInv(s, steps, env);
    RunReplies(s, steps, env);
    RunLater(s, steps, env);
  }

  lemma SubmittedIsFit(s: State, ids: seq<string>, taskType: string, payloads: seq<Payload>, env: Env)
    requires Fit(s, env) && |ids| == |payloads| && |taskType| > 0 && Distinct(ids) && AllFresh(s.tasks, ids)
    ensures Fit(Submitted(s, ids, taskType, payloads), env)
  {
    AcceptableAll(s.tasks, ids, |ids|);
    SubmissionIsARun(s, ids, taskType, payloads, env, |ids|);
    RunKeepsFit(s, SubmitSteps(ids, taskType, payloads, |ids|), env);
  }

  // ----- A job -----

  /** Workers run MAP and REDUCE tasks as the model does; what they do with other tasks is open. */
  ghost predicate RunsJobs(env: Env, fs: Functions) {
    && env.honest.Some?
    && (forall p :: env.honest.value("MAP", p) == Execute(fs, "MAP", p))
    && (forall p :: env.honest.value("REDUCE", p) == Execute(fs, "REDUCE", p))
  }

  ghost predicate IsTask(s: State, t: string, taskType: string, payload: Payload) {
    t in s.tasks && s.tasks[t].taskType == taskType && s.tasks[t].payload == payload
  }

  ghost predicate HasMaps(s: State, job: Job, chunks: seq<seq<Value>>) {
    forall i :: 0 <= i < |chunks| ==> IsTask(s, MapTaskId(job.id, i), "MAP", MapPayload(job.mapOp, chunks[i]))
  }

  ghost predicate HasReduces(s: State, job: Job, pairs: seq<Pair>) {
    forall k :: k in KeysOf(pairs) ==>
      IsTask(s, ReduceTaskId(job.id, k), "REDUCE", ReducePayload(job.reduceOp, k, ValuesOf(pairs, k)))
  }

  /** The job submits its MAP tasks in `s`; when they are not accepted it goes no further. */
  ghost function WithMaps(s: State, job: Job, chunks: seq<seq<Value>>): (r: State)
    requires Typed(s)
    ensures Typed(r)
  {
    if MapsSubmitted(job, chunks, s.tasks)
    then Submitted(s, MapTaskIds(job.id, |chunks|), "MAP", MapPayloads(job.mapOp, chunks)) else s
  }

  /** It shuffles what came back for `input` and submits its REDUCE tasks. */
  ghost function WithReduces(s: State, job: Job, f: Mapper, input: seq<Value>): (r: State)
    requires Typed(s)
    ensures Typed(r)
  {
    if ReducesSubmitted(job, f, input, s.tasks)
    then Submitted(s, ReduceTaskIds(job.id, KeysOf(PairsOf(f, input))), "REDUCE", ReducePayloads(job.reduceOp, GroupBy(PairsOf(f, input))))
    else s
  }

  lemma MapsAreIn(s: State, job: Job, chunks: seq<seq<Value>>, env: Env)
    requires Fit(s, env)
    ensures Fit(WithMaps(s, job, chunks), env)
    ensures MapsSubmitted(job, chunks, s.tasks) ==> HasMaps(WithMaps(s, job, chunks), job, chunks)
  {
    if MapsSubmitted(job, chunks, s.tasks) {
      MapTaskIdsDistinct(job.id, |chunks|);
      SubmittedIsFit(s, MapTaskIds(job.id, |chunks|), "MAP", MapPayloads(job.mapOp, chunks), env);
      MapsAdded(job, chunks, s.tasks);
    }
  }

  lemma ReducesAreIn(s: State, job: Job, f: Mapper, input: seq<Value>, env: Env)
    requires Fit(s, env)
    ensures Fit(WithReduces(s, job, f, input), env)
    ensures ReducesSubmitted(job, f, input, s.tasks) ==> HasReduces(WithReduces(s, job, f, input), job, PairsOf(f, input))
  {
    if ReducesSubmitted(job, f, input, s.tasks) {
      var g := GroupBy(PairsOf(f, input));
      SubmittedIsFit(s, ReduceTaskIds(job.id, g.order), "REDUCE", ReducePayloads(job.reduceOp, g), env);
      ReducesAdded(job, g, s.tasks);
    }
  }

  lemma TasksStay(s: State, r: State, job: Job, chunks: seq<seq<Value>>)
    requires Later(s, r) && HasMaps(s, job, chunks)
    ensures HasMaps(r, job, chunks)
  {
    forall i | 0 <= i < |chunks| ensures IsTask(r, MapTaskId(job.id, i), "MAP", MapPayload(job.mapOp, chunks[i])) {
      assert IsTask(s, MapTaskId(job.id, i), "MAP", MapPayload(job.mapOp, chunks[i]));
      assert TaskLater(s.tasks[MapTaskId(job.id, i)], r.tasks[MapTaskId(job.id, i)]);
    }
  }

  lemma ReduceTasksStay(s: State, r: State, job: Job, pairs: seq<Pair>)
    requires Later(s, r) && HasReduces(s, job, pairs)
    ensures HasReduces(r, job, pairs)
  {
    forall k | k in KeysOf(pairs)
      ensures IsTask(r, ReduceTaskId(job.id, k), "REDUCE", ReducePayload(job.reduceOp, k, ValuesOf(pairs, k)))
    {
      assert IsTask(s, ReduceTaskId(job.id, k), "REDUCE", ReducePayload(job.reduceOp, k, ValuesOf(pairs, k)));
      assert TaskLater(s.tasks[ReduceTaskId(job.id, k)], r.tasks[ReduceTaskId(job.id, k)]);
    }
  }

  // ----- A job that waits -----

  /** A finished wait covers task `t`. */
  ghost predicate Waited(s: State, k: nat, t: string) {
    k < |s.waiters| && s.waiters[k].Finished? && t in s.waiters[k].ids
  }

  lemma WaitedAnswers(s: State, env: Env, fs: Functions, k: nat, t: string, taskType: string, payload: Payload)
    requires Fit(s, env) && RunsJobs(env, fs) && (taskType == "MAP" || taskType == "REDUCE")
    requires Waited(s, k, t) && IsTask(s, t, taskType, payload)
    ensures Answered(s.waiters[k].results, t, Execute(fs, taskType, payload))
    ensures Won(s.waiters[k].results, t).Some? <==> s.tasks[t].status.Completed?
  {
    var n :| 0 <= n < |s.waiters[k].ids| && s.waiters[k].ids[n] == t;
    FitWaitAnswers(s, env, k, n);
  }

  predicate IsCompleted(s: State, t: string) { t in s.tasks && s.tasks[t].status.Completed? }

  /** The job's input less the chunks whose MAP task did not complete. */
  ghost function CompletedInput(s: State, job: Job, chunks: seq<seq<Value>>): seq<Value> {
    Flatten(seq(|chunks|, i requires 0 <= i < |chunks| => if IsCompleted(s, MapTaskId(job.id, i)) then chunks[i] else []))
  }

  /** The job's wait for all of its MAP tasks is over. */
  ghost predicate MapsWaited(s: State, k: nat, job: Job, chunks: seq<seq<Value>>) {
    k < |s.waiters| && s.waiters[k].Finished? && forall i :: 0 <= i < |chunks| ==> Waited(s, k, MapTaskId(job.id, i))
  }

  ghost predicate ReducesWaited(s: State, k: nat, job: Job, pairs: seq<Pair>) {
    k < |s.waiters| && s.waiters[k].Finished? && forall key :: key in KeysOf(pairs) ==> Waited(s, k, ReduceTaskId(job.id, key))
  }

  lemma MapsAreAnswered(s: State, env: Env, fs: Functions, k: nat, job: Job, chunks: seq<seq<Value>>)
    requires Fit(s, env) && RunsJobs(env, fs) && MapsWaited(s, k, job, chunks) && HasMaps(s, job, chunks)
    ensures MapsAnswered(fs, job.mapOp, chunks, s.waiters[k].results, MapTaskIds(job.id, |chunks|))
    ensures Survivors(job, chunks, s.waiters[k].results) == CompletedInput(s, job, chunks)
  {
    var mapped, ids := s.waiters[k].results, MapTaskIds(job.id, |chunks|);
    forall i | 0 <= i < |chunks|
      ensures Answered(mapped, ids[i], Execute(fs, "MAP", MapPayload(job.mapOp, chunks[i])))
      ensures Won(mapped, ids[i]).Some? <==> IsCompleted(s, ids[i])
    {
      assert Waited(s, k, MapTaskId(job.id, i)) && IsTask(s, MapTaskId(job.id, i), "MAP", MapPayload(job.mapOp, chunks[i]));
      WaitedAnswers(s, env, fs, k, ids[i], "MAP", MapPayload(job.mapOp, chunks[i]));
    }
    assert Kept(chunks, mapped, ids) ==
      seq(|chunks|, i requires 0 <= i < |chunks| => if IsCompleted(s, MapTaskId(job.id, i)) then chunks[i] else []);
  }

  ghost predicate KeyAnswered(s: State, results: seq<Response>, fs: Functions, job: Job, pairs: seq<Pair>, key: Value) {
    && Answered(results, ReduceTaskId(job.id, key), Execute(fs, "REDUCE", ReducePayload(job.reduceOp, key, ValuesOf(pairs, key))))
    && (Won(results, ReduceTaskId(job.id, key)).Some? <==> IsCompleted(s, ReduceTaskId(job.id, key)))
  }

  lemma ReducesAreAnswered(s: State, env: Env, fs: Functions, k: nat, job: Job, pairs: seq<Pair>)
    requires Fit(s, env) && RunsJobs(env, fs) && ReducesWaited(s, k, job, pairs) && HasReduces(s, job, pairs)
    ensures forall key :: key in KeysOf(pairs) ==> KeyAnswered(s, s.waiters[k].results, fs, job, pairs, key)
  {
    forall key | key in KeysOf(pairs) ensures KeyAnswered(s, s.waiters[k].results, fs, job, pairs, key) {
      var t, payload := ReduceTaskId(job.id, key), ReducePayload(job.reduceOp, key, ValuesOf(pairs, key));
      assert Waited(s, k, t) && IsTask(s, t, "REDUCE", payload);
      WaitedAnswers(s, env, fs, k, t, "REDUCE", payload);
    }
  }

  /** How the master serves a job. In a state `start` of any run the job submits its MAP tasks; the
      master makes the steps `first`, among them those of the job's wait, which is waiter `k`; the job
      shuffles and submits its REDUCE tasks; the master makes the steps `second`, with waiter `l`. */
  datatype Service = Service(start: State, first: seq<Step>, k: nat, second: seq<Step>, l: nat)

  ghost predicate MapsServed(v: Service, job: Job, chunks: seq<seq<Value>>, env: Env) {
    && Fit(v.start, env) && IsRun(WithMaps(v.start, job, chunks), v.first, env)
    && (MapsSubmitted(job, chunks, v.start.tasks) ==> MapsWaited(Halfway(v, job, chunks, env), v.k, job, chunks))
  }

  /** Where the job submits its REDUCE tasks. */
  ghost function Halfway(v: Service, job: Job, chunks: seq<seq<Value>>, env: Env): (s: State)
    requires Typed(v.start) && IsRun(WithMaps(v.start, job, chunks), v.first, env)
    ensures Typed(s)
  {
    Exec(WithMaps(v.start, job, chunks), v.first, env)
  }

  /** Where it ends, if it reduces `input`. */
  ghost function Ending(v: Service, s: State, job: Job, f: Mapper, input: seq<Value>, env: Env): State
    requires Typed(s) && IsRun(WithReduces(s, job, f, input), v.second, env)
  {
    Exec(WithReduces(s, job, f, input), v.second, env)
  }

  ghost predicate ReducesServed(v: Service, s: State, job: Job, f: Mapper, input: seq<Value>, env: Env)
    requires Typed(s)
  {
    && IsRun(WithReduces(s, job, f, input), v.second, env)
    && (ReducesSubmitted(job, f, input, s.tasks) ==> ReducesWaited(Ending(v, s, job, f, input, env), v.l, job, PairsOf(f, input)))
  }

  /** What a wait returned. */
  ghost function ResultsOf(s: State, k: nat): seq<Response> {
    if k < |s.waiters| && s.waiters[k].Finished? then s.waiters[k].results else []
  }

  /** What makes a served job succeed, said of the master's own tasks. */
  ghost predicate JobCompletes(s: State, r: State, job: Job, f: Mapper, input: seq<Value>, chunks: seq<seq<Value>>, before: map<string, Task>) {
    && MapsSubmitted(job, chunks, before) && ReducesSubmitted(job, f, input, s.tasks)
    && forall k :: k in KeysOf(PairsOf(f, input)) ==> IsCompleted(r, ReduceTaskId(job.id, k))
  }

  lemma MapsWereServed(fs: Functions, v: Service, job: Job, chunks: seq<seq<Value>>, env: Env)
    requires RunsJobs(env, fs) && MapsServed(v, job, chunks, env)
    ensures var s := Halfway(v, job, chunks, env);
            && Fit(s, env)
            && (MapsSubmitted(job, chunks, v.start.tasks) ==>
                  && MapsAnswered(fs, job.mapOp, chunks, ResultsOf(s, v.k), MapTaskIds(job.id, |chunks|))
                  && Survivors(job, chunks, ResultsOf(s, v.k)) == CompletedInput(s, job, chunks))
  {
    var s := Halfway(v, job, chunks, env);
    MapsAreIn(v.start, job, chunks, env);
    RunKeepsFit(WithMaps(v.start, job, chunks), v.first, env);
    if MapsSubmitted(job, chunks, v.start.tasks) {
      TasksStay(WithMaps(v.start, job, chunks), s, job, chunks);
      MapsAreAnswered(s, env, fs, v.k, job, chunks);
    }
  }

  lemma ReducesWereServed(fs: Functions, v: Service, s: State, job: Job, f: Mapper, input: seq<Value>, env: Env)
    requires RunsJobs(env, fs) && Fit(s, env) && ReducesServed(v, s, job, f, input, env) && ReducesSubmitted(job, f, input, s.tasks)
    ensures var r, pairs := Ending(v, s, job, f, input, env), PairsOf(f, input);
            forall key :: key in KeysOf(pairs) ==> KeyAnswered(r, ResultsOf(r, v.l), fs, job, pairs, key)
  {
    var q, r := WithReduces(s, job, f, input), Ending(v, s, job, f, input, env);
    ReducesAreIn(s, job, f, input, env);
    RunKeepsFit(q, v.second, env);
    ReduceTasksStay(q, r, job, PairsOf(f, input));
    ReducesAreAnswered(r, env, fs, v.l, job, PairsOf(f, input));
  }

  lemma AnsweredKeys(r: State, results: seq<Response>, fs: Functions, job: Job, pairs: seq<Pair>)
    requires forall key :: key in KeysOf(pairs) ==> KeyAnswered(r, results, fs, job, pairs, key)
    ensures ReducesAnswered(fs, job, pairs, results)
    ensures (forall key :: key in KeysOf(pairs) ==> Won(results, ReduceTaskId(job.id, key)).Some?) <==>
              (forall key :: key in KeysOf(pairs) ==> IsCompleted(r, ReduceTaskId(job.id, key)))
  {
  }

  /** A job served by the master in any run with honest workers, through any failures, retries,
      reconnections and other work: it returns exactly when its MAP tasks were accepted, what they
      emitted could be shuffled, its REDUCE tasks were accepted and all of them completed; and then
      it returns the sequential result on the chunks whose MAP task completed. That its tasks are
      the ones it submitted, and still are when it reads its results, is part of the proof. */
  lemma ServedMapReduce(fs: Functions, job: Job, f: Mapper, chunks: seq<seq<Value>>, env: Env, v: Service)
    requires RunsJobs(env, fs) && f == ElementMapper(fs, job.mapOp) && MapsServed(v, job, chunks, env)
    requires var s := Halfway(v, job, chunks, env);
             MapsSubmitted(job, chunks, v.start.tasks) ==> ReducesServed(v, s, job, f, CompletedInput(s, job, chunks), env)
    ensures var s := Halfway(v, job, chunks, env);
            var input := CompletedInput(s, job, chunks);
            MapsSubmitted(job, chunks, v.start.tasks) ==>
              var r := Ending(v, s, job, f, input, env);
              var result := RunMapReduce(job, chunks, v.start.tasks, s.tasks, ResultsOf(s, v.k), ResultsOf(r, v.l));
              && (result.Ok? <==> JobCompletes(s, r, job, f, input, chunks, v.start.tasks))
              && (result.Ok? ==> Mappable(f, input) && Reducible(f, ReducerFor(fs, job.reduceOp), input)
                                 && result.value == Sequential(f, ReducerFor(fs, job.reduceOp), input))
    ensures !MapsSubmitted(job, chunks, v.start.tasks) ==>
              forall between, mapped, reduced :: RunMapReduce(job, chunks, v.start.tasks, between, mapped, reduced).Err?
  {
    if MapsSubmitted(job, chunks, v.start.tasks) {
      var s := Halfway(v, job, chunks, env);
      var input := CompletedInput(s, job, chunks);
      var r := Ending(v, s, job, f, input, env);
      MapsWereServed(fs, v, job, chunks, env);
      if ReducesSubmitted(job, f, input, s.tasks) {
        ReducesWereServed(fs, v, s, job, f, input, env);
        AnsweredKeys(r, ResultsOf(r, v.l), fs, job, PairsOf(f, input));
      }
      MapReduceIsSequential(fs, job, f, chunks, v.start.tasks, s.tasks, ResultsOf(s, v.k), ResultsOf(r, v.l));
    }
  }

  lemma AllCompleted(s: State, job: Job, chunks: seq<seq<Value>>)
    requires IsFair(job.data, job.partitions, chunks)
    requires forall i :: 0 <= i < |chunks| ==> IsCompleted(s, MapTaskId(job.id, i))
    ensures CompletedInput(s, job, chunks) == job.data
  {
    assert seq(|chunks|, i requires 0 <= i < |chunks| => if IsCompleted(s, MapTaskId(job.id, i)) then chunks[i] else []) == chunks;
  }

  /** So when the chunks are a fair partition and every MAP task completed, a job that returns
      returns the sequential result on all of its data. */
  lemma ServedOnAllData(fs: Functions, job: Job, f: Mapper, chunks: seq<seq<Value>>, env: Env, v: Service)
    requires RunsJobs(env, fs) && f == ElementMapper(fs, job.mapOp) && IsFair(job.data, job.partitions, chunks)
    requires MapsServed(v, job, chunks, env)
    requires forall i :: 0 <= i < |chunks| ==> IsCompleted(Halfway(v, job, chunks, env), MapTaskId(job.id, i))
    requires ReducesServed(v, Halfway(v, job, chunks, env), job, f, job.data, env)
    ensures var s := Halfway(v, job, chunks, env);
            var r := Ending(v, s, job, f, job.data, env);
            var result := RunMapReduce(job, chunks, v.start.tasks, s.tasks, ResultsOf(s, v.k), ResultsOf(r, v.l));
            && (result.Ok? <==> JobCompletes(s, r, job, f, job.data, chunks, v.start.tasks))
            && (result.Ok? ==> Mappable(f, job.data) && Reducible(f, ReducerFor(fs, job.reduceOp), job.data)
                               && result.value == Sequential(f, ReducerFor(fs, job.reduceOp), job.data))
  {
    AllCompleted(Halfway(v, job, chunks, env), job, chunks);
    ServedMapReduce(fs, job, f, chunks, env, v);
  }

  /** A served job of WORD_COUNT and SUM over non-empty texts, all of whose MAP tasks completed,
      returns how often each text occurs in its data. */
  lemma ServedWordCount(fs: Functions, job: Job, f: Mapper, chunks: seq<seq<Value>>, env: Env, v: Service)
    requires RunsJobs(env, fs) && f == ElementMapper(fs, job.mapOp) && IsFair(job.data, job.partitions, chunks)
    requires job.mapOp == NamedMap("WORD_COUNT") && job.reduceOp == NamedReduce("SUM")
    requires forall n :: 0 <= n < |job.data| ==> job.data[n].Str? && job.data[n].text != ""
    requires MapsServed(v, job, chunks, env)
    requires forall i :: 0 <= i < |chunks| ==> IsCompleted(Halfway(v, job, chunks, env), MapTaskId(job.id, i))
    requires ReducesServed(v, Halfway(v, job, chunks, env), job, f, job.data, env)
    ensures var s := Halfway(v, job, chunks, env);
            var r := Ending(v, s, job, f, job.data, env);
            var result := RunMapReduce(job, chunks, v.start.tasks, s.tasks, ResultsOf(s, v.k), ResultsOf(r, v.l));
            && (result.Ok? <==> JobCompletes(s, r, job, f, job.data, chunks, v.start.tasks))
            && (result.Ok? ==> result.value == map word | word in job.data :: Num(multiset(job.data)[word]))
  {
    ServedOnAllData(fs, job, f, chunks, env, v);
    WordsAreCounted(fs, f, ReducerFor(fs, job.reduceOp), job.data);
  }

  // ----- A drain -----

  function ResponsesOf(ds: seq<Dispatch>): (r: seq<Response>)
    requires forall p :: 0 <= p < |ds| ==> ds[p].Returned?
    ensures |r| == |ds|
  {
    seq(|ds|, p requires 0 <= p < |ds| => ds[p].response)
  }

  ghost predicate AllCarry(ds: seq<Dispatch>) {
    forall p :: 0 <= p < |ds| ==> ds[p].Returned? && ds[p].response.Carries(ds[p].task, ds[p].attempt)
  }

  lemma CollectedCarry(s: State, n: nat, r: State, exec: Executor)
    requires Typed(r) && ReplyInv(r, Some(exec)) && BatchReturned(s, n, r)
    ensures AllCarry(BatchDispatches(s, n, r))
  {
    var ds := BatchDispatches(s, n, r);
    forall p | 0 <= p < |ds| ensures ds[p].Returned? && ds[p].response.Carries(ds[p].task, ds[p].attempt) {
      assert DispatchOk(r, r.dispatches[|s.dispatches| + p], Some(exec));
    }
  }

  lemma RoundReplies(s: State, round: Round, scope: Option<set<string>>, env: Env)
    requires Inv(s) && ReplyInv(s, env.honest) && Assigns(s, round, scope, env)
    ensures Inv(After(s, round, scope, env)) && ReplyInv(After(s, round, scope, env), env.honest)
  {
    RoundLater(s, round, scope, env);
    RunReplies(s, round.batch, env);
    RunReplies(Exec(s, round.batch, env), round.meanwhile, env);
  }

  lemma BothCarry(a: seq<Dispatch>, b: seq<Dispatch>)
    requires AllCarry(a) && AllCarry(b)
    ensures AllCarry(a + b)
  {
  }

  lemma {:induction false} DrainedCarry(s: State, rounds: seq<Round>, scope: Option<set<string>>, env: Env)
    requires Inv(s) && env.honest.Some? && ReplyInv(s, env.honest) && IsDrain(s, rounds, scope, env)
    ensures AllCarry(Drained(s, rounds, scope, env))
    decreases |rounds|
  {
    if rounds != [] {
      var r := After(s, rounds[0], scope, env);
      RoundReplies(s, rounds[0], scope, env);
      CollectedCarry(s, |rounds[0].batch|, r, env.honest.value);
      DrainedCarry(r, rounds[1..], scope, env);
      BothCarry(BatchDispatches(s, |rounds[0].batch|, r), Drained(r, rounds[1..], scope, env));
    }
  }

  /** The index over `ds` holds the response at `q` for its task, and any other at `p` is of an
      earlier attempt. */
  ghost predicate Wins(ds: seq<Dispatch>, q: nat, p: nat)
    requires AllCarry(ds) && p < |ds|
  {
    && q < |ds| && ds[q].task == ds[p].task && (p != q ==> ds[p].attempt < ds[q].attempt)
    && ds[q].task in Index(ResponsesOf(ds)) && Index(ResponsesOf(ds))[ds[q].task] == ds[q].response
  }

  lemma IndexOfIncreasing(ds: seq<Dispatch>, p: nat) returns (q: nat)
    requires AllCarry(ds) && Increasing(ds) && p < |ds|
    ensures Wins(ds, q, p)
  {
    var responses := ResponsesOf(ds);
    IndexIsLast(responses, ds[p].task);
    assert responses[p].TaskId() == Some(ds[p].task);
    q :| IsLastOf(responses, ds[p].task, q) && Index(responses)[ds[p].task] == responses[q];
  }

  /** With honest workers, the last-wins index over a drain's responses picks, for each task, the
      response of the latest attempt that drain dispatched. */
  lemma LastWinsIsLatest(s: State, rounds: seq<Round>, scope: Option<set<string>>, env: Env, p: nat) returns (q: nat)
    requires Inv(s) && env.honest.Some? && ReplyInv(s, env.honest) && IsDrain(s, rounds, scope, env)
    requires p < |Drained(s, rounds, scope, env)|
    ensures AllCarry(Drained(s, rounds, scope, env)) && Wins(Drained(s, rounds, scope, env), q, p)
  {
    DrainedCarry(s, rounds, scope, env);
    DrainIsOrdered(s, rounds, scope, env);
    q := IndexOfIncreasing(Drained(s, rounds, scope, env), p);
  }

  /** Each of these is of an attempt of its task, and what an honest worker makes of that task. */
  ghost predicate AllFaithful(r: State, ds: seq<Dispatch>, honest: Option<Executor>) {
    forall p :: 0 <= p < |ds| ==>
      ds[p].Returned? && ds[p].task in r.tasks && Faithful(r.tasks[ds[p].task], ds[p].task, ds[p].attempt, ds[p].response, honest)
  }

  lemma CollectedFaithful(s: State, n: nat, r: State, honest: Option<Executor>)
    requires Typed(r) && ReplyInv(r, honest) && BatchReturned(s, n, r)
    ensures AllFaithful(r, BatchDispatches(s, n, r), honest)
  {
    var ds := BatchDispatches(s, n, r);
    forall p | 0 <= p < |ds|
      ensures ds[p].Returned? && ds[p].task in r.tasks && Faithful(r.tasks[ds[p].task], ds[p].task, ds[p].attempt, ds[p].response, honest)
    {
      assert DispatchOk(r, r.dispatches[|s.dispatches| + p], honest);
    }
  }

  lemma FaithfulLater(r: State, end: State, a: seq<Dispatch>, b: seq<Dispatch>, honest: Option<Executor>)
    requires AllFaithful(r, a, honest) && AllFaithful(end, b, honest) && Later(r, end)
    ensures AllFaithful(end, a + b, honest)
  {
    forall p | 0 <= p < |a| ensures Faithful(end.tasks[a[p].task], a[p].task, a[p].attempt, a[p].response, honest) {
      assert TaskLater(r.tasks[a[p].task], end.tasks[a[p].task]);
    }
  }

  lemma {:induction false} DrainedFaithful(s: State, rounds: seq<Round>, scope: Option<set<string>>, env: Env)
    requires Inv(s) && ReplyInv(s, env.honest) && IsDrain(s, rounds, scope, env)
    ensures AllFaithful(DrainEnd(s, rounds, scope, env), Drained(s, rounds, scope, env), env.honest)
    decreases |rounds|
  {
    if rounds != [] {
      var r := After(s, rounds[0], scope, env);
      RoundReplies(s, rounds[0], scope, env);
      CollectedFaithful(s, |rounds[0].batch|, r, env.honest);
      DrainKeepsTasks(r, rounds[1..], scope, env);
      DrainedFaithful(r, rounds[1..], scope, env);
      FaithfulLater(r, DrainEnd(r, rounds[1..], scope, env), BatchDispatches(s, |rounds[0].batch|, r),
                    Drained(r, rounds[1..], scope, env), env.honest);
    }
  }

  lemma FaithfulAnswers(end: State, ds: seq<Dispatch>, exec: Executor, t: string)
    requires AllFaithful(end, ds, Some(exec)) && t in end.tasks
    ensures Answered(ResponsesOf(ds), t, exec(end.tasks[t].taskType, end.tasks[t].payload))
  {
    var responses := ResponsesOf(ds);
    forall p | 0 <= p < |responses| && responses[p].TaskId() == Some(t)
      ensures responses[p].Unreachable? || Carried(responses[p]) == Some(exec(end.tasks[t].taskType, end.tasks[t].payload))
    {
      assert Faithful(end.tasks[ds[p].task], ds[p].task, ds[p].attempt, ds[p].response, Some(exec));
    }
  }

  /** A drain, from a state of any run. */
  datatype Draining = Draining(start: State, rounds: seq<Round>, scope: Option<set<string>>)

  ghost predicate IsHonestDrain(d: Draining, env: Env) {
    Fit(d.start, env) && IsDrain(d.start, d.rounds, d.scope, env)
  }

  ghost function EndOf(d: Draining, env: Env): State
    requires IsHonestDrain(d, env)
  {
    DrainEnd(d.start, d.rounds, d.scope, env)
  }

  lemma {:induction false} DrainKeepsFit(s: State, rounds: seq<Round>, scope: Option<set<string>>, env: Env)
    requires Fit(s, env) && IsDrain(s, rounds, scope, env)
    ensures Fit(DrainEnd(s, rounds, scope, env), env)
    decreases |rounds|
  {
    if rounds != [] {
      RoundReplies(s, rounds[0], scope, env);
      DrainKeepsFit(After(s, rounds[0], scope, env), rounds[1..], scope, env);
    }
  }

  /** The responses the drain returns. */
  ghost function ListOf(d: Draining, env: Env): seq<Response>
    requires IsHonestDrain(d, env) && env.honest.Some?
  {
    DrainedFaithful(d.start, d.rounds, d.scope, env);
    ResponsesOf(Drained(d.start, d.rounds, d.scope, env))
  }

  lemma DrainAnswers(d: Draining, env: Env, fs: Functions, t: string, taskType: string, payload: Payload)
    requires RunsJobs(env, fs) && (taskType == "MAP" || taskType == "REDUCE") && IsHonestDrain(d, env)
    requires IsTask(EndOf(d, env), t, taskType, payload)
    ensures Answered(ListOf(d, env), t, Execute(fs, taskType, payload))
  {
    DrainedFaithful(d.start, d.rounds, d.scope, env);
    FaithfulAnswers(EndOf(d, env), Drained(d.start, d.rounds, d.scope, env), env.honest.value, t);
  }

  lemma MapsDrained(d: Draining, env: Env, fs: Functions, job: Job, chunks: seq<seq<Value>>)
    requires RunsJobs(env, fs) && IsHonestDrain(d, env) && HasMaps(d.start, job, chunks)
    ensures MapsAnswered(fs, job.mapOp, chunks, ListOf(d, env), MapTaskIds(job.id, |chunks|))
  {
    DrainKeepsTasks(d.start, d.rounds, d.scope, env);
    TasksStay(d.start, EndOf(d, env), job, chunks);
    forall i | 0 <= i < |chunks|
      ensures Answered(ListOf(d, env), MapTaskIds(job.id, |chunks|)[i], Execute(fs, "MAP", MapPayload(job.mapOp, chunks[i])))
    {
      assert IsTask(EndOf(d, env), MapTaskId(job.id, i), "MAP", MapPayload(job.mapOp, chunks[i]));
      DrainAnswers(d, env, fs, MapTaskId(job.id, i), "MAP", MapPayload(job.mapOp, chunks[i]));
    }
  }

  lemma ReducesDrained(d: Draining, env: Env, fs: Functions, job: Job, pairs: seq<Pair>)
    requires RunsJobs(env, fs) && IsHonestDrain(d, env) && HasReduces(d.start, job, pairs)
    ensures ReducesAnswered(fs, job, pairs, ListOf(d, env))
  {
    DrainKeepsTasks(d.start, d.rounds, d.scope, env);
    ReduceTasksStay(d.start, EndOf(d, env), job, pairs);
    forall k | k in KeysOf(pairs)
      ensures Answered(ListOf(d, env), ReduceTaskId(job.id, k), Execute(fs, "REDUCE", ReducePayload(job.reduceOp, k, ValuesOf(pairs, k))))
    {
      assert IsTask(EndOf(d, env), ReduceTaskId(job.id, k), "REDUCE", ReducePayload(job.reduceOp, k, ValuesOf(pairs, k)));
      DrainAnswers(d, env, fs, ReduceTaskId(job.id, k), "REDUCE", ReducePayload(job.reduceOp, k, ValuesOf(pairs, k)));
    }
  }

  /** A job that drains its tasks itself, with whatever else the master does meanwhile: it submits its
      MAP tasks in a state `start` of any run and drains from there, submits its REDUCE tasks where
      that drain ends and drains again. It returns exactly when nothing goes wrong, and then it returns
      the sequential result on the chunks whose latest dispatched attempt succeeded. */
  lemma DrainedMapReduce(fs: Functions, job: Job, f: Mapper, chunks: seq<seq<Value>>, env: Env,
                         start: State, first: Draining, second: Draining)
    requires RunsJobs(env, fs) && f == ElementMapper(fs, job.mapOp) && Fit(start, env)
    requires IsHonestDrain(first, env) && IsHonestDrain(second, env)
    requires first.start == WithMaps(start, job, chunks)
    requires second.start == WithReduces(EndOf(first, env), job, f, Survivors(job, chunks, ListOf(first, env)))
    ensures var mapped, reduced, between := ListOf(first, env), ListOf(second, env), EndOf(first, env).tasks;
            var r := RunMapReduce(job, chunks, start.tasks, between, mapped, reduced);
            var input := Survivors(job, chunks, mapped);
            && (r.Ok? <==> Succeeds(job, chunks, f, start.tasks, between, mapped, reduced))
            && (r.Ok? ==> Mappable(f, input) && Reducible(f, ReducerFor(fs, job.reduceOp), input)
                          && r.value == Sequential(f, ReducerFor(fs, job.reduceOp), input))
  {
    var mapped, reduced, s := ListOf(first, env), ListOf(second, env), EndOf(first, env);
    if MapsSubmitted(job, chunks, start.tasks) {
      MapsAreIn(start, job, chunks, env);
      MapsDrained(first, env, fs, job, chunks);
      var input := Survivors(job, chunks, mapped);
      if ReducesSubmitted(job, f, input, s.tasks) {
        DrainKeepsFit(first.start, first.rounds, first.scope, env);
        ReducesAreIn(s, job, f, input, env);
        ReducesDrained(second, env, fs, job, PairsOf(f, input));
      }
    }
    MapReduceIsSequential(fs, job, f, chunks, start.tasks, s.tasks, mapped, reduced);
  }
}
