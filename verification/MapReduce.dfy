/** `run_map_reduce`: a distributed job computes what a sequential one would. */
module MapReduce {
  import opened Entities
  import opened Protocol
  import opened Scheduling
  import opened Execution
  import opened Partitioning
  import opened Jobs

  datatype Job = Job(id: string, data: seq<Value>, mapOp: MapOperation, reduceOp: ReduceOperation, partitions: int)

  // ----- Submitting the two phases -----

  /** Besides `ids`, the table is as it was. */
  ghost predicate OnlyAdds(before: map<string, Task>, ids: seq<string>, after: map<string, Task>) {
    forall t :: t !in ids ==> (t in after <==> t in before) && (t in before ==> after[t] == before[t])
  }

  ghost predicate IsNewTask(tasks: map<string, Task>, t: string, taskType: string, payload: Payload) {
    t in tasks && tasks[t] == Task(taskType, payload, Pending, None, 0)
  }

  /** `build_map_job`: one MAP task per chunk of a fair partition. */
  method BuildMapJob(scheduler: Scheduler, job: Job) returns (r: Result<seq<string>>, ghost chunks: seq<seq<Value>>)
    requires scheduler.Valid()
    modifies scheduler
    ensures scheduler.Valid() && (job.partitions >= 1 ==> IsFair(job.data, job.partitions, chunks))
    ensures r.Ok? <==> job.partitions >= 1 && AllFresh(old(scheduler.tasks), MapTaskIds(job.id, |chunks|))
    ensures r.Ok? ==> r.value == MapTaskIds(job.id, |chunks|)
    ensures r.Ok? ==> scheduler.tasks == AddTasks(old(scheduler.tasks), r.value, "MAP", MapPayloads(job.mapOp, chunks))
    ensures r.Ok? ==> forall i :: 0 <= i < |chunks| ==>
              IsNewTask(scheduler.tasks, MapTaskId(job.id, i), "MAP", MapPayload(job.mapOp, chunks[i]))
    ensures r.Ok? ==> OnlyAdds(old(scheduler.tasks), MapTaskIds(job.id, |chunks|), scheduler.tasks)
  {
    chunks := [];
    var parts := Partition(job.data, job.partitions);
    if parts.Err? { return Err(parts.reason), chunks; }
    chunks := parts.value;
    var ids := MapTaskIds(job.id, |parts.value|);
    MapTaskIdsDistinct(job.id, |parts.value|);
    var ok := SubmitAll(scheduler, ids, "MAP", MapPayloads(job.mapOp, parts.value));
    MapsAdded(job, chunks, old(scheduler.tasks));
    r := if ok then Ok(ids) else Err("Task already exists");
  }

  lemma MapsAdded(job: Job, chunks: seq<seq<Value>>, before: map<string, Task>)
    ensures var ids := MapTaskIds(job.id, |chunks|);
            var after := AddTasks(before, ids, "MAP", MapPayloads(job.mapOp, chunks));
            && OnlyAdds(before, ids, after)
            && forall i :: 0 <= i < |chunks| ==> IsNewTask(after, MapTaskId(job.id, i), "MAP", MapPayload(job.mapOp, chunks[i]))
  {
    var ids := MapTaskIds(job.id, |chunks|);
    MapTaskIdsDistinct(job.id, |chunks|);
    AddFirstGives(before, ids, "MAP", MapPayloads(job.mapOp, chunks), |ids|);
    forall i | 0 <= i < |chunks|
      ensures IsNewTask(AddTasks(before, ids, "MAP", MapPayloads(job.mapOp, chunks)), MapTaskId(job.id, i), "MAP",
                        MapPayload(job.mapOp, chunks[i]))
    {
      assert ids[i] == MapTaskId(job.id, i);
    }
  }

  predicate WellGrouped(g: Grouped) { forall k :: k in g.order ==> k in g.values }

  /** `build_reduce_job`: one REDUCE task per key; it is rejected exactly when two keys render
      alike or an id is taken. */
  method BuildReduceJob(scheduler: Scheduler, job: Job, g: Grouped) returns (ok: bool)
    requires scheduler.Valid() && WellGrouped(g)
    modifies scheduler
    ensures scheduler.Valid()
    ensures ok <==> Distinct(ReduceTaskIds(job.id, g.order)) && AllFresh(old(scheduler.tasks), ReduceTaskIds(job.id, g.order))
    ensures ok ==>
              scheduler.tasks == AddTasks(old(scheduler.tasks), ReduceTaskIds(job.id, g.order), "REDUCE", ReducePayloads(job.reduceOp, g))
    ensures ok ==> forall k :: k in g.order ==>
              IsNewTask(scheduler.tasks, ReduceTaskId(job.id, k), "REDUCE", ReducePayload(job.reduceOp, k, g.values[k]))
    ensures ok ==> OnlyAdds(old(scheduler.tasks), ReduceTaskIds(job.id, g.order), scheduler.tasks)
  {
    ok := SubmitAll(scheduler, ReduceTaskIds(job.id, g.order), "REDUCE", ReducePayloads(job.reduceOp, g));
    if ok { ReducesAdded(job, g, old(scheduler.tasks)); }
  }

  lemma ReducesAdded(job: Job, g: Grouped, before: map<string, Task>)
    requires WellGrouped(g) && Distinct(ReduceTaskIds(job.id, g.order))
    ensures var ids := ReduceTaskIds(job.id, g.order);
            var after := AddTasks(before, ids, "REDUCE", ReducePayloads(job.reduceOp, g));
            && OnlyAdds(before, ids, after)
            && forall k :: k in g.order ==>
                 IsNewTask(after, ReduceTaskId(job.id, k), "REDUCE", ReducePayload(job.reduceOp, k, g.values[k]))
  {
    var ids := ReduceTaskIds(job.id, g.order);
    AddFirstGives(before, ids, "REDUCE", ReducePayloads(job.reduceOp, g), |ids|);
    forall k | k in g.order
      ensures IsNewTask(AddTasks(before, ids, "REDUCE", ReducePayloads(job.reduceOp, g)), ReduceTaskId(job.id, k), "REDUCE",
                        ReducePayload(job.reduceOp, k, g.values[k]))
    {
      var i :| 0 <= i < |g.order| && g.order[i] == k;
      assert ids[i] == ReduceTaskId(job.id, k);
    }
  }

  predicate ReduceAccepted(job: Job, pairs: Option<seq<Pair>>, tasks: map<string, Task>) {
    && pairs.Some?
    && var ids := ReduceTaskIds(job.id, KeysOf(pairs.value));
       Distinct(ids) && AllFresh(tasks, ids)
  }

  /** Between the two dispatches: index, shuffle, and submit the REDUCE tasks. */
  method StartReduce(scheduler: Scheduler, job: Job, ids: seq<string>, mapped: seq<Response>) returns (r: Result<seq<Value>>)
    requires scheduler.Valid()
    modifies scheduler
    ensures scheduler.Valid()
    ensures r.Ok? <==> ReduceAccepted(job, AllPairs(IntermediateResults(mapped, ids)), old(scheduler.tasks))
    ensures r.Err? ==> r.reason == if AllPairs(IntermediateResults(mapped, ids)).None? then "shuffle" else "reduce tasks"
    ensures r.Ok? ==> var g := GroupBy(AllPairs(IntermediateResults(mapped, ids)).value);
                      && r.value == g.order
                      && scheduler.tasks == AddTasks(old(scheduler.tasks), ReduceTaskIds(job.id, g.order), "REDUCE",
                                                     ReducePayloads(job.reduceOp, g))
  {
    var results := BuildIntermediateResults(ids, mapped);
    var g := Shuffle(results);
    if g.Err? { return Err("shuffle"); }
    var ok := BuildReduceJob(scheduler, job, g.value);
    r := if ok then Ok(g.value.order) else Err("reduce tasks");
  }

  /** The map tasks are accepted. */
  predicate MapsSubmitted(job: Job, chunks: seq<seq<Value>>, before: map<string, Task>) {
    job.partitions >= 1 && AllFresh(before, MapTaskIds(job.id, |chunks|))
  }

  /** The whole job, given its chunks, the task tables at the two submissions and what the two
      dispatches returned. */
  ghost function RunMapReduce(job: Job, chunks: seq<seq<Value>>, before: map<string, Task>, between: map<string, Task>,
                              mapped: seq<Response>, reduced: seq<Response>): Result<map<Value, Value>>
  {
    var pairs := AllPairs(IntermediateResults(mapped, MapTaskIds(job.id, |chunks|)));
    if !MapsSubmitted(job, chunks, before) then Err("map tasks")
    else if pairs.None? then Err("shuffle")
    else if !ReduceAccepted(job, pairs, between) then Err("reduce tasks")
    else
      var keys := KeysOf(pairs.value);
      if exists k :: k in keys && Won(reduced, ReduceTaskId(job.id, k)).None? then Err("reduce results")
      else Ok(map k | k in keys :: Won(reduced, ReduceTaskId(job.id, k)).value)
  }

  /** The coroutine: submit, dispatch, shuffle and submit, dispatch, collect. While the first
      dispatch is awaited other work may turn the scheduler's table into any other, `tasks` in
      submission order `order`; what the dispatches return is given. */
  method RunJob(scheduler: Scheduler, job: Job, mapped: seq<Response>, tasks: map<string, Task>, order: seq<string>,
                reduced: seq<Response>)
    returns (r: Result<map<Value, Value>>, ghost chunks: seq<seq<Value>>)
    requires scheduler.Valid() && Distinct(order) && forall t :: t in order <==> t in tasks
    modifies scheduler
    ensures scheduler.Valid() && (job.partitions >= 1 ==> IsFair(job.data, job.partitions, chunks))
    ensures r == RunMapReduce(job, chunks, old(scheduler.tasks), tasks, mapped, reduced)
  {
    var ids;
    ids, chunks := BuildMapJob(scheduler, job);
    if ids.Err? { return Err("map tasks"), chunks; }
    scheduler.tasks, scheduler.order := tasks, order;
    var keys := StartReduce(scheduler, job, ids.value, mapped);
    if keys.Err? { return Err(keys.reason), chunks; }
    var results := CollectReduceResults(job.id, keys.value, reduced);
    r := if results.Ok? then results else Err("reduce results");
  }

  // ----- The sequential meaning -----

  predicate Mappable(f: Mapper, input: seq<Value>) { AllMap(f, input) && AllUnpack(Mapped(f, input)) }

  function PairsOf(f: Mapper, input: seq<Value>): seq<Pair>
    requires Mappable(f, input)
  {
    Unpacked(Mapped(f, input))
  }

  predicate AllReduce(g: Reducer, pairs: seq<Pair>) {
    forall k :: k in KeysOf(pairs) ==> g(ValuesOf(pairs, k)).Success?
  }

  /** Every key with the reduction of its values in order. */
  function Reduced(g: Reducer, pairs: seq<Pair>): map<Value, Value>
    requires AllReduce(g, pairs)
  {
    map k | k in KeysOf(pairs) :: g(ValuesOf(pairs, k)).result
  }

  predicate Reducible(f: Mapper, g: Reducer, input: seq<Value>)
    requires Mappable(f, input)
  {
    AllReduce(g, PairsOf(f, input))
  }

  /** Every key of the mapped input with the reduction of its values in input order. */
  function Sequential(f: Mapper, g: Reducer, input: seq<Value>): map<Value, Value>
    requires Mappable(f, input) && Reducible(f, g, input)
  {
    Reduced(g, PairsOf(f, input))
  }

  // ----- Responses that answer -----

  /** The outcome a worker's reply carries. */
  function Carried(r: Response): Option<Outcome> {
    if r.WorkerReply? && r.message.body.TaskResult? then Some(r.message.body.outcome) else None
  }

  /** Every response naming `t` is an unreachable worker's or carries the outcome `o`. */
  ghost predicate Answered(responses: seq<Response>, t: string, o: Outcome) {
    forall p :: 0 <= p < |responses| && responses[p].TaskId() == Some(t) ==>
      responses[p].Unreachable? || Carried(responses[p]) == Some(o)
  }

  lemma WonIsTheOutcome(responses: seq<Response>, t: string, o: Outcome)
    requires Answered(responses, t, o) && Won(responses, t).Some?
    ensures o == Success(Won(responses, t).value)
  {
    IndexIsLast(responses, t);
  }

  // ----- Map phase -----

  /** The chunks whose task succeeded, the others left empty. */
  ghost function Kept(chunks: seq<seq<Value>>, mapped: seq<Response>, ids: seq<string>): (r: seq<seq<Value>>)
    requires |ids| == |chunks|
    ensures |r| == |chunks|
  {
    seq(|chunks|, i requires 0 <= i < |chunks| => if Won(mapped, ids[i]).Some? then chunks[i] else [])
  }

  ghost predicate MapsAnswered(fs: Functions, op: MapOperation, chunks: seq<seq<Value>>, mapped: seq<Response>, ids: seq<string>)
    requires |ids| == |chunks|
  {
    forall i :: 0 <= i < |chunks| ==> Answered(mapped, ids[i], Execute(fs, "MAP", MapPayload(op, chunks[i])))
  }

  lemma UnpackParts(a: seq<Value>, b: seq<Value>)
    ensures AllUnpack(a + b) <==> AllUnpack(a) && AllUnpack(b)
    ensures AllUnpack(a + b) ==> Unpacked(a + b) == Unpacked(a) + Unpacked(b)
  {
    var ab := a + b;
    assert forall n :: 0 <= n < |a| ==> a[n] == ab[n];
    assert forall n :: 0 <= n < |b| ==> b[n] == ab[|a| + n];
  }

  /** The shuffle's pairs, of one partition. */
  lemma PartitionPairs(fs: Functions, op: MapOperation, f: Mapper, chunk: seq<Value>, mapped: seq<Response>, t: string, n: nat)
    requires f == ElementMapper(fs, op) && Answered(mapped, t, Execute(fs, "MAP", MapPayload(op, chunk)))
    ensures var kept := if Won(mapped, t).Some? then chunk else [];
            AllMap(f, kept) && Emitted(Intermediate(n, t, Won(mapped, t))) == Some(Mapped(f, kept))
  {
    if Won(mapped, t).Some? {
      WonIsTheOutcome(mapped, t, Execute(fs, "MAP", MapPayload(op, chunk)));
      assert MapAll(f, chunk) == Success(List(Mapped(f, chunk)));
    } else {
      assert Mapped(f, []) == [];
    }
  }

  ghost predicate PairsMatch(f: Mapper, results: seq<Intermediate>, input: seq<Value>) {
    && AllMap(f, input)
    && (AllPairs(results).Some? <==> AllUnpack(Mapped(f, input)))
    && (AllPairs(results).Some? ==> AllPairs(results).value == Unpacked(Mapped(f, input)))
  }

  lemma OneMorePartition(f: Mapper, results: seq<Intermediate>, input: seq<Value>, next: Intermediate, chunk: seq<Value>)
    requires PairsMatch(f, results, input) && AllMap(f, chunk) && Emitted(next) == Some(Mapped(f, chunk))
    ensures PairsMatch(f, results + [next], input + chunk)
  {
    MapAllParts(f, input, chunk);
    UnpackParts(Mapped(f, input), Mapped(f, chunk));
    assert (results + [next])[..|results|] == results;
  }

  /** What comes out of the map phase and the shuffle is what mapping the surviving input would give. */
  lemma {:induction false} SurvivorsArePaired(fs: Functions, op: MapOperation, f: Mapper, chunks: seq<seq<Value>>,
                                              mapped: seq<Response>, ids: seq<string>, n: nat)
    requires |ids| == |chunks| && n <= |chunks|
    requires f == ElementMapper(fs, op) && MapsAnswered(fs, op, chunks, mapped, ids)
    ensures PairsMatch(f, IntermediateResults(mapped, ids)[..n], Flatten(Kept(chunks, mapped, ids)[..n]))
    decreases n
  {
    if n > 0 {
      SurvivorsArePaired(fs, op, f, chunks, mapped, ids, n - 1);
      var results, kept := IntermediateResults(mapped, ids), Kept(chunks, mapped, ids);
      PartitionPairs(fs, op, f, chunks[n - 1], mapped, ids[n - 1], n - 1);
      OneMorePartition(f, results[..n - 1], Flatten(kept[..n - 1]), results[n - 1], kept[n - 1]);
      assert results[..n] == results[..n - 1] + [results[n - 1]];
      assert kept[..n][..n - 1] == kept[..n - 1];
    }
  }

  /** The input that reached the shuffle. */
  ghost function Survivors(job: Job, chunks: seq<seq<Value>>, mapped: seq<Response>): seq<Value> {
    Flatten(Kept(chunks, mapped, MapTaskIds(job.id, |chunks|)))
  }

  lemma AllSurvive(job: Job, chunks: seq<seq<Value>>, mapped: seq<Response>)
    requires IsFair(job.data, job.partitions, chunks)
    requires forall i :: 0 <= i < |chunks| ==> Won(mapped, MapTaskId(job.id, i)).Some?
    ensures Survivors(job, chunks, mapped) == job.data
  {
    assert Kept(chunks, mapped, MapTaskIds(job.id, |chunks|)) == chunks;
  }

  // ----- The whole job -----

  function ReducerFor(fs: Functions, op: ReduceOperation): Reducer { values => ExecuteReduce(fs, op, values) }

  ghost predicate ReducesAnswered(fs: Functions, job: Job, pairs: seq<Pair>, reduced: seq<Response>) {
    forall k :: k in KeysOf(pairs) ==>
      Answered(reduced, ReduceTaskId(job.id, k), Execute(fs, "REDUCE", ReducePayload(job.reduceOp, k, ValuesOf(pairs, k))))
  }

  /** The shuffle succeeds on `input` and the reduce tasks are accepted. */
  predicate ReducesSubmitted(job: Job, f: Mapper, input: seq<Value>, between: map<string, Task>) {
    && Mappable(f, input)
    && var ids := ReduceTaskIds(job.id, KeysOf(PairsOf(f, input)));
       Distinct(ids) && AllFresh(between, ids)
  }

  /** Nothing goes wrong on the way: ids are new, results are pairs, keys render apart, and every
      key's reduction came back. */
  ghost predicate Succeeds(job: Job, chunks: seq<seq<Value>>, f: Mapper, before: map<string, Task>, between: map<string, Task>,
                           mapped: seq<Response>, reduced: seq<Response>)
  {
    var input := Survivors(job, chunks, mapped);
    && MapsSubmitted(job, chunks, before) && ReducesSubmitted(job, f, input, between)
    && forall k :: k in KeysOf(PairsOf(f, input)) ==> Won(reduced, ReduceTaskId(job.id, k)).Some?
  }

  lemma ReductionsAreRight(fs: Functions, job: Job, f: Mapper, input: seq<Value>, reduced: seq<Response>)
    requires Mappable(f, input) && ReducesAnswered(fs, job, PairsOf(f, input), reduced)
    requires forall k :: k in KeysOf(PairsOf(f, input)) ==> Won(reduced, ReduceTaskId(job.id, k)).Some?
    ensures Reducible(f, ReducerFor(fs, job.reduceOp), input)
    ensures (map k | k in KeysOf(PairsOf(f, input)) :: Won(reduced, ReduceTaskId(job.id, k)).value) ==
              Sequential(f, ReducerFor(fs, job.reduceOp), input)
  {
    var pairs := PairsOf(f, input);
    forall k | k in KeysOf(pairs)
      ensures ReducerFor(fs, job.reduceOp)(ValuesOf(pairs, k)) == Success(Won(reduced, ReduceTaskId(job.id, k)).value)
    {
      WonIsTheOutcome(reduced, ReduceTaskId(job.id, k), Execute(fs, "REDUCE", ReducePayload(job.reduceOp, k, ValuesOf(pairs, k))));
    }
  }

  /** A job returns exactly when nothing goes wrong, and then it returns what the sequential
      computation gives on the input whose map tasks succeeded: never part of a dictionary. The
      responses need to answer only the tasks that were submitted. */
  lemma MapReduceIsSequential(fs: Functions, job: Job, f: Mapper, chunks: seq<seq<Value>>,
                              before: map<string, Task>, between: map<string, Task>, mapped: seq<Response>, reduced: seq<Response>)
    requires f == ElementMapper(fs, job.mapOp)
    requires MapsSubmitted(job, chunks, before) ==> MapsAnswered(fs, job.mapOp, chunks, mapped, MapTaskIds(job.id, |chunks|))
    requires MapsSubmitted(job, chunks, before) && ReducesSubmitted(job, f, Survivors(job, chunks, mapped), between) ==>
               ReducesAnswered(fs, job, PairsOf(f, Survivors(job, chunks, mapped)), reduced)
    ensures var r := RunMapReduce(job, chunks, before, between, mapped, reduced);
            var input := Survivors(job, chunks, mapped);
            && (r.Ok? <==> Succeeds(job, chunks, f, before, between, mapped, reduced))
            && (r.Ok? ==> Mappable(f, input) && Reducible(f, ReducerFor(fs, job.reduceOp), input)
                          && r.value == Sequential(f, ReducerFor(fs, job.reduceOp), input))
  {
    if MapsSubmitted(job, chunks, before) {
      var ids, input := MapTaskIds(job.id, |chunks|), Survivors(job, chunks, mapped);
      var results, kept := IntermediateResults(mapped, ids), Kept(chunks, mapped, ids);
      SurvivorsArePaired(fs, job.mapOp, f, chunks, mapped, ids, |chunks|);
      assert results[..|chunks|] == results && kept[..|chunks|] == kept;
      if Succeeds(job, chunks, f, before, between, mapped, reduced) {
        ReductionsAreRight(fs, job, f, input, reduced);
      }
    }
  }

  /** With string keys no two keys of a job can collide. */
  lemma StringKeysRenderApart(job: string, pairs: seq<Pair>)
    requires forall k :: k in KeysOf(pairs) ==> k.Str?
    ensures Distinct(ReduceTaskIds(job, KeysOf(pairs)))
  {
    KeysOfIs(pairs);
    var keys := KeysOf(pairs);
    forall i, j | 0 <= i < j < |keys| ensures ReduceTaskId(job, keys[i]) != ReduceTaskId(job, keys[j]) {
      assert keys[i] in keys && keys[j] in keys;
      assert keys[i].Str? && keys[j].Str? && keys[i] != keys[j];
      ReduceTaskIdRenders(job, keys[i], keys[j]);
    }
  }

  /** `reduce_grouped`: the same reduction done locally, for a built-in operation. On shuffled pairs
      it returns what the sequential reduction of those pairs, and so a dispatched job, returns. */
  method ReduceGrouped(fs: Functions, g: Grouped, name: string) returns (r: Result<map<Value, Value>>)
    requires WellGrouped(g)
    ensures r.Ok? <==> IsBuiltInReduce(name) && forall k :: k in g.order ==> ExecuteReduce(fs, NamedReduce(name), g.values[k]).Success?
    ensures r.Ok? ==> r.value == map k | k in g.order :: ExecuteReduce(fs, NamedReduce(name), g.values[k]).result
    ensures r.Ok? ==> forall pairs :: g == GroupBy(pairs) ==>
              AllReduce(ReducerFor(fs, NamedReduce(name)), pairs) && r.value == Reduced(ReducerFor(fs, NamedReduce(name)), pairs)
  {
    if !IsBuiltInReduce(name) { return Err("Unsupported REDUCE operation"); }
    var reduced := map[];
    for n := 0 to |g.order|
      invariant forall k :: k in g.order[..n] ==> ExecuteReduce(fs, NamedReduce(name), g.values[k]).Success?
      invariant reduced == map k | k in g.order[..n] :: ExecuteReduce(fs, NamedReduce(name), g.values[k]).result
    {
      assert g.order[..n + 1] == g.order[..n] + [g.order[n]];
      var one := ExecuteReduce(fs, NamedReduce(name), g.values[g.order[n]]);
      if one.Failure? { return Err("Reduce failed"); }
      reduced := reduced[g.order[n] := one.result];
    }
    assert g.order[..|g.order|] == g.order;
    return Ok(reduced);
  }

  /** When every map and every reduce task succeeded in the end, the ids were free, the mapped
      results are pairs and the keys are strings, the job returns the sequential result on all of
      its data, however it was partitioned and in whatever order and number responses came. */
  lemma MapReduceSucceeds(fs: Functions, job: Job, f: Mapper, chunks: seq<seq<Value>>,
                          before: map<string, Task>, between: map<string, Task>, mapped: seq<Response>, reduced: seq<Response>)
    requires f == ElementMapper(fs, job.mapOp) && job.partitions >= 1 && IsFair(job.data, job.partitions, chunks)
    requires MapsAnswered(fs, job.mapOp, chunks, mapped, MapTaskIds(job.id, |chunks|))
    requires forall i :: 0 <= i < |chunks| ==> Won(mapped, MapTaskId(job.id, i)).Some?
    requires Mappable(f, job.data) && ReducesAnswered(fs, job, PairsOf(f, job.data), reduced)
    requires forall k :: k in KeysOf(PairsOf(f, job.data)) ==> k.Str? && Won(reduced, ReduceTaskId(job.id, k)).Some?
    requires AllFresh(before, MapTaskIds(job.id, |chunks|))
    requires AllFresh(between, ReduceTaskIds(job.id, KeysOf(PairsOf(f, job.data))))
    ensures Reducible(f, ReducerFor(fs, job.reduceOp), job.data)
    ensures RunMapReduce(job, chunks, before, between, mapped, reduced) ==
              Ok(Sequential(f, ReducerFor(fs, job.reduceOp), job.data))
  {
    AllSurvive(job, chunks, mapped);
    StringKeysRenderApart(job.id, PairsOf(f, job.data));
    MapReduceIsSequential(fs, job, f, chunks, before, between, mapped, reduced);
  }

  // ----- Counting words -----

  /** Pairing every word with a one leaves each key as many ones as the word occurs. */
  lemma {:induction false} OnesOf(input: seq<Value>, pairs: seq<Pair>, key: Value)
    requires |pairs| == |input| && forall n :: 0 <= n < |input| ==> pairs[n] == (input[n], Num(1))
    ensures AllNumbers(ValuesOf(pairs, key)) && |ValuesOf(pairs, key)| == multiset(input)[key]
    ensures Sum(ValuesOf(pairs, key)) == multiset(input)[key]
    decreases |pairs|
  {
    if pairs != [] {
      var last := |pairs| - 1;
      var before := ValuesOf(pairs[..last], key);
      OnesOf(input[..last], pairs[..last], key);
      assert input == input[..last] + [input[last]];
      if pairs[last].0 == key {
        SumParts(before, [Num(1)]);
        SumOfOne(1);
      } else {
        assert ValuesOf(pairs, key) == before;
      }
    }
  }

  lemma WordsArePaired(fs: Functions, f: Mapper, input: seq<Value>)
    requires f == ElementMapper(fs, NamedMap("WORD_COUNT"))
    requires forall n :: 0 <= n < |input| ==> input[n].Str? && input[n].text != ""
    ensures Mappable(f, input) && |PairsOf(f, input)| == |input|
    ensures forall n :: 0 <= n < |input| ==> PairsOf(f, input)[n] == (input[n], Num(1))
  {
    forall n | 0 <= n < |input| ensures f(input[n]) == Success(List([input[n], Num(1)])) { BuiltInMapsAre(fs, input[n]); }
    forall n | 0 <= n < |input| ensures Unpack(Mapped(f, input)[n]) == Some((input[n], Num(1))) {
      UnpackIs(List([input[n], Num(1)]), input[n], Num(1));
    }
  }

  /** WORD_COUNT reduced with SUM is what its name says: on any list of non-empty texts the
      sequential result, and so a job's, is each text with the number of times it occurs. */
  lemma WordsAreCounted(fs: Functions, f: Mapper, g: Reducer, input: seq<Value>)
    requires f == ElementMapper(fs, NamedMap("WORD_COUNT")) && g == ReducerFor(fs, NamedReduce("SUM"))
    requires forall n :: 0 <= n < |input| ==> input[n].Str? && input[n].text != ""
    ensures Mappable(f, input) && Reducible(f, g, input)
    ensures Sequential(f, g, input) == map word | word in input :: Num(multiset(input)[word])
  {
    WordsArePaired(fs, f, input);
    var pairs := PairsOf(f, input);
    KeysOfIs(pairs);
    forall k ensures k in KeysOf(pairs) <==> k in input {
      if k in input { var n :| 0 <= n < |input| && input[n] == k; assert pairs[n].0 == k; }
    }
    forall k | k in KeysOf(pairs) ensures g(ValuesOf(pairs, k)) == Success(Num(multiset(input)[k])) {
      OnesOf(input, pairs, k);
      assert k in input;
      BuiltInReducesAre(fs, ValuesOf(pairs, k));
    }
  }

  /** Keys that render alike make the job fail although every task could be computed: the number
      1 and the text "1" share a task id. */
  lemma KeysCanCollide(job: string)
    ensures !Distinct(ReduceTaskIds(job, KeysOf([(Num(1), Num(0)), (Str("1"), Num(0))])))
  {
    var pairs := [(Num(1), Num(0)), (Str("1"), Num(0))];
    assert pairs[..1] == [(Num(1), Num(0))] && pairs[..1][..0] == [];
    assert KeysOf(pairs) == [Num(1), Str("1")];
    assert ReduceTaskIds(job, KeysOf(pairs))[0] == ReduceTaskIds(job, KeysOf(pairs))[1];
  }

  /** Because failed partitions are tolerated, a job with an unknown map operation does not raise:
      it returns an empty dictionary. */
  lemma UnknownMapReturnsNothing(fs: Functions, job: Job, chunks: seq<seq<Value>>, before: map<string, Task>,
                                 between: map<string, Task>, mapped: seq<Response>, reduced: seq<Response>)
    requires MapperFor(fs, job.mapOp).None? && MapsSubmitted(job, chunks, before)
    requires MapsAnswered(fs, job.mapOp, chunks, mapped, MapTaskIds(job.id, |chunks|))
    ensures RunMapReduce(job, chunks, before, between, mapped, reduced) == Ok(map[])
  {
    var ids := MapTaskIds(job.id, |chunks|);
    var results := IntermediateResults(mapped, ids);
    forall i | 0 <= i < |chunks| ensures Emitted(results[i]) == Some([]) {
      if Won(mapped, ids[i]).Some? { WonIsTheOutcome(mapped, ids[i], Execute(fs, "MAP", MapPayload(job.mapOp, chunks[i]))); }
    }
    NothingEmitted(results);
  }

  lemma {:induction false} NothingEmitted(results: seq<Intermediate>)
    requires forall i :: 0 <= i < |results| ==> Emitted(results[i]) == Some([])
    ensures AllPairs(results) == Some([])
    decreases |results|
  {
    if results != [] {
      NothingEmitted(results[..|results| - 1]);
      assert Unpacked([]) == [];
    }
  }
}
