/** The steps of a MapReduce job: task ids, submission, indexing, collecting and shuffling. */
module Jobs {
  import opened Entities
  import opened RequestIds
  import opened Protocol
  import opened Scheduling
  import opened Partitioning

  // ----- Task ids -----

  function MapTaskId(job: string, i: nat): string { job + "-map-" + Decimal(i) }

  /** How a key appears in a task id. Keys are never lists: those cannot be grouped by. */
  function Render(key: Value): string {
    match key
    case Null => "None"
    case Num(n) => if n < 0 then "-" + Decimal(-n) else Decimal(n)
    case Str(text) => text
    case List(_) => ""
  }

  function ReduceTaskId(job: string, key: Value): string { job + "-reduce-" + Render(key) }

  function MapTaskIds(job: string, n: nat): (ids: seq<string>)
    ensures |ids| == n && forall i :: 0 <= i < n ==> ids[i] == MapTaskId(job, i)
  {
    seq(n, i requires 0 <= i < n => MapTaskId(job, i))
  }

  lemma MapTaskIdsDistinct(job: string, n: nat)
    ensures Distinct(MapTaskIds(job, n))
  {
    forall i, j | 0 <= i < j < n ensures MapTaskId(job, i) != MapTaskId(job, j) {
      var prefix := job + "-map-";
      assert MapTaskId(job, i)[|prefix|..] == Decimal(i) && MapTaskId(job, j)[|prefix|..] == Decimal(j);
      ParseDecimal(i);
      ParseDecimal(j);
    }
  }

  function ReduceTaskIds(job: string, keys: seq<Value>): (ids: seq<string>)
    ensures |ids| == |keys| && forall i :: 0 <= i < |keys| ==> ids[i] == ReduceTaskId(job, keys[i])
  {
    seq(|keys|, i requires 0 <= i < |keys| => ReduceTaskId(job, keys[i]))
  }

  /** Two keys share a task id exactly when they render alike. */
  lemma ReduceTaskIdRenders(job: string, k: Value, k': Value)
    ensures ReduceTaskId(job, k) == ReduceTaskId(job, k') <==> Render(k) == Render(k')
  {
    var prefix := job + "-reduce-";
    assert ReduceTaskId(job, k)[|prefix|..] == Render(k) && ReduceTaskId(job, k')[|prefix|..] == Render(k');
  }

  /** Two different keys render alike exactly when one is a text that spells the other, a number
      or null. */
  lemma RenderedAlike(a: Value, b: Value)
    requires a != b && !a.List? && !b.List?
    ensures Render(a) == Render(b) <==>
              (a.Str? && !b.Str? && a.text == Render(b)) || (b.Str? && !a.Str? && b.text == Render(a))
    ensures forall n :: Render(Num(n)) == if n < 0 then "-" + Decimal(-n) else Decimal(n)
    ensures Render(Null) == "None"
  {
    if a.Num? {
      NumberRenders(a.n);
      if b.Num? { NumbersRenderApart(a.n, b.n); }
    } else if b.Num? {
      NumberRenders(b.n);
    }
  }

  lemma NumberRenders(n: int)
    ensures Render(Num(n)) != "" && Render(Num(n))[0] != 'N'
    ensures Render(Num(n))[0] == '-' <==> n < 0
  {
    assert Decimal(if n < 0 then -n else n)[0] <= '9';
  }

  lemma NumbersRenderApart(a: int, b: int)
    requires a != b
    ensures Render(Num(a)) != Render(Num(b))
  {
    if a < 0 && b < 0 {
      DecimalsDiffer(-a, -b);
      assert Render(Num(a))[1..] == Decimal(-a) && Render(Num(b))[1..] == Decimal(-b);
    } else if a >= 0 && b >= 0 {
      DecimalsDiffer(a, b);
    } else {
      NumberRenders(a);
      NumberRenders(b);
    }
  }

  lemma DecimalsDiffer(a: nat, b: nat)
    requires a != b
    ensures Decimal(a) != Decimal(b)
  {
    ParseDecimal(a);
    ParseDecimal(b);
  }

  // ----- Submission -----

  /** The table with the first `n` tasks added. */
  ghost function AddFirst(tasks: map<string, Task>, ids: seq<string>, taskType: string, payloads: seq<Payload>, n: nat): map<string, Task>
    requires n <= |ids| == |payloads|
  {
    if n == 0 then tasks
    else AddFirst(tasks, ids, taskType, payloads, n - 1)[ids[n - 1] := Task(taskType, payloads[n - 1], Pending, None, 0)]
  }

  ghost function AddTasks(tasks: map<string, Task>, ids: seq<string>, taskType: string, payloads: seq<Payload>): map<string, Task>
    requires |ids| == |payloads|
  {
    AddFirst(tasks, ids, taskType, payloads, |ids|)
  }

  predicate AllFresh(tasks: map<string, Task>, ids: seq<string>) {
    forall i :: 0 <= i < |ids| ==> |ids[i]| > 0 && ids[i] !in tasks
  }

  /** The first `n` ids are new and distinct, so submitting them was accepted. */
  ghost predicate Acceptable(tasks: map<string, Task>, ids: seq<string>, n: nat)
    requires n <= |ids|
  {
    && (forall i :: 0 <= i < n ==> |ids[i]| > 0 && ids[i] !in tasks)
    && (forall i, j :: 0 <= i < j < n ==> ids[i] != ids[j])
  }

  lemma {:induction false} AddFirstKeys(tasks: map<string, Task>, ids: seq<string>, taskType: string, payloads: seq<Payload>, n: nat, t: string)
    requires n <= |ids| == |payloads|
    ensures t in AddFirst(tasks, ids, taskType, payloads, n) <==> t in tasks || exists i :: 0 <= i < n && ids[i] == t
  {
    if n > 0 { AddFirstKeys(tasks, ids, taskType, payloads, n - 1, t); }
  }

  /** Adding tasks gives each id its own payload, and leaves every other id as it was. */
  lemma {:induction false} AddFirstGives(tasks: map<string, Task>, ids: seq<string>, taskType: string, payloads: seq<Payload>, n: nat)
    requires n <= |ids| == |payloads| && Distinct(ids)
    ensures var r := AddFirst(tasks, ids, taskType, payloads, n);
            && (forall i :: 0 <= i < n ==> ids[i] in r && r[ids[i]] == Task(taskType, payloads[i], Pending, None, 0))
            && (forall t :: t !in ids ==> (t in r <==> t in tasks) && (t in tasks ==> r[t] == tasks[t]))
  {
    if n > 0 { AddFirstGives(tasks, ids, taskType, payloads, n - 1); }
  }

  /** The next submission is accepted exactly when the ids stay acceptable. */
  lemma OneMoreAcceptable(tasks: map<string, Task>, ids: seq<string>, taskType: string, payloads: seq<Payload>, n: nat)
    requires n < |ids| == |payloads| && Acceptable(tasks, ids, n)
    ensures Acceptable(tasks, ids, n + 1) <==> |ids[n]| > 0 && ids[n] !in AddFirst(tasks, ids, taskType, payloads, n)
  {
    AddFirstKeys(tasks, ids, taskType, payloads, n, ids[n]);
  }

  lemma AcceptableAll(tasks: map<string, Task>, ids: seq<string>, n: nat)
    requires n <= |ids|
    ensures Acceptable(tasks, ids, |ids|) <==> Distinct(ids) && AllFresh(tasks, ids)
    ensures !Acceptable(tasks, ids, n) ==> !Acceptable(tasks, ids, |ids|)
  {
  }

  /** Submits one task after another until one is rejected: all are accepted exactly when the
      ids are new and distinct. */
  method SubmitAll(scheduler: Scheduler, ids: seq<string>, taskType: string, payloads: seq<Payload>) returns (ok: bool)
    requires scheduler.Valid() && |ids| == |payloads| && |taskType| > 0
    modifies scheduler
    ensures scheduler.Valid()
    ensures ok <==> Distinct(ids) && AllFresh(old(scheduler.tasks), ids)
    ensures ok ==> scheduler.tasks == AddTasks(old(scheduler.tasks), ids, taskType, payloads)
  {
    ghost var before := scheduler.tasks;
    var n := 0;
    while n < |ids|
      invariant n <= |ids| && scheduler.Valid() && Acceptable(before, ids, n)
      invariant scheduler.tasks == AddFirst(before, ids, taskType, payloads, n)
    {
      OneMoreAcceptable(before, ids, taskType, payloads, n);
      ok := scheduler.Submit(ids[n], taskType, payloads[n]);
      if !ok {
        AcceptableAll(before, ids, n + 1);
        return;
      }
      n := n + 1;
    }
    AcceptableAll(before, ids, n);
    ok := true;
  }

  function MapPayloads(op: MapOperation, chunks: seq<seq<Value>>): (r: seq<Payload>)
    ensures |r| == |chunks| && forall i :: 0 <= i < |chunks| ==> r[i] == MapPayload(op, chunks[i])
  {
    seq(|chunks|, i requires 0 <= i < |chunks| => MapPayload(op, chunks[i]))
  }

  // ----- Responses -----

  /** `_index_responses_by_task_id`. */
  function Index(responses: seq<Response>): map<string, Response> {
    if responses == [] then map[]
    else
      var last := responses[|responses| - 1];
      var rest := Index(responses[..|responses| - 1]);
      if last.TaskId().Some? then rest[last.TaskId().value := last] else rest
  }

  method IndexResponses(responses: seq<Response>) returns (index: map<string, Response>)
    ensures index == Index(responses)
  {
    index := map[];
    for n := 0 to |responses|
      invariant index == Index(responses[..n])
    {
      assert responses[..n + 1][..n] == responses[..n];
      var t := responses[n].TaskId();
      if t.Some? { index := index[t.value := responses[n]]; }
    }
    assert responses[..|responses|] == responses;
  }

  ghost predicate IsLastOf(responses: seq<Response>, t: string, p: int) {
    && 0 <= p < |responses| && responses[p].TaskId() == Some(t)
    && forall q :: p < q < |responses| ==> responses[q].TaskId() != Some(t)
  }

  /** The index holds, for each task named in the list, its last response. */
  lemma {:induction false} IndexIsLast(responses: seq<Response>, t: string)
    ensures t in Index(responses) <==> exists p :: 0 <= p < |responses| && responses[p].TaskId() == Some(t)
    ensures t in Index(responses) ==> exists p :: IsLastOf(responses, t, p) && Index(responses)[t] == responses[p]
    decreases |responses|
  {
    if responses != [] {
      var last := |responses| - 1;
      var rest := responses[..last];
      IndexIsLast(rest, t);
      if responses[last].TaskId() == Some(t) {
        assert IsLastOf(responses, t, last);
      } else if t in Index(rest) {
        var p :| IsLastOf(rest, t, p) && Index(rest)[t] == rest[p];
        assert IsLastOf(responses, t, p);
      }
    }
  }

  /** The result of a task whose last response says it succeeded. */
  function Won(responses: seq<Response>, t: string): Option<Value> {
    var index := Index(responses);
    if t in index && index[t].WorkerReply? && Succeeded(index[t].message) then Some(index[t].message.body.outcome.result)
    else None
  }

  /** What iterating over a JSON value gives: a list's items, a string's characters. */
  function Items(v: Value): Option<seq<Value>> {
    match v
    case List(items) => Some(items)
    case Str(text) => Some(seq(|text|, i requires 0 <= i < |text| => Str([text[i]])))
    case _ => None
  }

  /** The last response of every task, in task order, if all succeeded with something to add. */
  ghost predicate AllCollectable(responses: seq<Response>, ids: seq<string>) {
    forall n :: 0 <= n < |ids| ==> Won(responses, ids[n]).Some? && Items(Won(responses, ids[n]).value).Some?
  }

  ghost function Collected(responses: seq<Response>, ids: seq<string>): (r: seq<seq<Value>>)
    requires AllCollectable(responses, ids)
    ensures |r| == |ids| && forall n :: 0 <= n < |ids| ==> Items(Won(responses, ids[n]).value) == Some(r[n])
  {
    seq(|ids|, n requires 0 <= n < |ids| => Items(Won(responses, ids[n]).value).value)
  }

  /** `collect_map_results`: everything in task order, or an error when any task has no success. */
  method CollectMapResults(ids: seq<string>, responses: seq<Response>) returns (r: Result<seq<Value>>)
    ensures r.Ok? <==> AllCollectable(responses, ids)
    ensures r.Ok? ==> r.value == Flatten(Collected(responses, ids))
  {
    var combined := [];
    for n := 0 to |ids|
      invariant AllCollectable(responses, ids[..n]) && combined == Flatten(Collected(responses, ids[..n]))
    {
      var result := Won(responses, ids[n]);
      if result.None? { return Err("No successful response"); }
      var items := Items(result.value);
      if items.None? { return Err("Result is not iterable"); }
      assert ids[..n + 1][..n] == ids[..n];
      assert Collected(responses, ids[..n + 1])[..n] == Collected(responses, ids[..n]);
      combined := combined + items.value;
    }
    assert ids[..|ids|] == ids;
    return Ok(combined);
  }

  /** One partition's output; `data` is `None` for a failed or missing partition. */
  datatype Intermediate = Intermediate(partition: nat, task: string, data: Option<Value>)

  function IntermediateResults(responses: seq<Response>, ids: seq<string>): (r: seq<Intermediate>)
    ensures |r| == |ids|
  {
    seq(|ids|, n requires 0 <= n < |ids| => Intermediate(n, ids[n], Won(responses, ids[n])))
  }

  /** `build_intermediate_results`. */
  method BuildIntermediateResults(ids: seq<string>, responses: seq<Response>) returns (results: seq<Intermediate>)
    ensures results == IntermediateResults(responses, ids)
    ensures forall n :: 0 <= n < |ids| ==> results[n] == Intermediate(n, ids[n], Won(responses, ids[n]))
  {
    var index := IndexResponses(responses);
    results := [];
    for n := 0 to |ids|
      invariant |results| == n && forall k :: 0 <= k < n ==> results[k] == Intermediate(k, ids[k], Won(responses, ids[k]))
    {
      if ids[n] !in index {
        results := results + [Intermediate(n, ids[n], None)];
      } else {
        var response := index[ids[n]];
        if response.WorkerReply? && Succeeded(response.message) {
          results := results + [Intermediate(n, ids[n], Some(response.message.body.outcome.result))];
        } else {
          results := results + [Intermediate(n, ids[n], None)];
        }
      }
    }
  }

  // ----- Shuffle -----

  type Pair = (Value, Value)

  /** `key, value = pair`, with a key a dictionary accepts. */
  function Unpack(v: Value): Option<Pair> {
    var items := Items(v);
    if items.Some? && |items.value| == 2 && !items.value[0].List? then Some((items.value[0], items.value[1])) else None
  }

  /** A two-item list unpacks to its first item as the key and its second as the value, and a text
      of two characters to those; a key may not be a list, and nothing else unpacks. */
  lemma UnpackIs(v: Value, key: Value, value: Value)
    ensures Unpack(v) == Some((key, value)) <==>
              && !key.List?
              && (v == List([key, value]) || (v.Str? && |v.text| == 2 && key == Str([v.text[0]]) && value == Str([v.text[1]])))
  {
    if v.List? && |v.items| == 2 { assert v.items == [v.items[0], v.items[1]]; }
  }

  predicate AllUnpack(items: seq<Value>) { forall n :: 0 <= n < |items| ==> Unpack(items[n]).Some? }

  function Unpacked(items: seq<Value>): (r: seq<Pair>)
    requires AllUnpack(items)
    ensures |r| == |items| && forall n :: 0 <= n < |items| ==> Unpack(items[n]) == Some(r[n])
  {
    seq(|items|, n requires 0 <= n < |items| => Unpack(items[n]).value)
  }

  /** The values of one key, in order. */
  function ValuesOf(pairs: seq<Pair>, key: Value): seq<Value> {
    if pairs == [] then []
    else
      var last := pairs[|pairs| - 1];
      ValuesOf(pairs[..|pairs| - 1], key) + if last.0 == key then [last.1] else []
  }

  /** Grouping two stretches of pairs is grouping each: a key's values keep their order. */
  lemma {:induction false} ValuesOfParts(a: seq<Pair>, b: seq<Pair>, key: Value)
    ensures ValuesOf(a + b, key) == ValuesOf(a, key) + ValuesOf(b, key)
    decreases |b|
  {
    if b == [] {
      assert a + b == a;
    } else {
      ValuesOfParts(a, b[..|b| - 1], key);
      assert (a + b)[..|a + b| - 1] == a + b[..|b| - 1];
    }
  }

  lemma ValuesOfOne(pair: Pair, key: Value)
    ensures ValuesOf([pair], key) == if pair.0 == key then [pair.1] else []
    ensures ValuesOf([], key) == []
  {
    assert [pair][..0] == [];
  }

  /** `at` are the positions where `key` occurs, in order. */
  ghost predicate Occurrences(pairs: seq<Pair>, key: Value, at: seq<nat>) {
    && (forall i, j :: 0 <= i < j < |at| ==> at[i] < at[j])
    && (forall i :: 0 <= i < |at| ==> at[i] < |pairs| && pairs[at[i]].0 == key)
    && (forall n :: 0 <= n < |pairs| && pairs[n].0 == key ==> n in at)
  }

  lemma OtherKeyOccursAsBefore(pairs: seq<Pair>, pair: Pair, key: Value, at: seq<nat>)
    requires Occurrences(pairs, key, at) && pair.0 != key
    ensures Occurrences(pairs + [pair], key, at)
  {
    var more := pairs + [pair];
    forall n | 0 <= n < |more| && more[n].0 == key ensures n in at { assert more[n] == pairs[n]; }
  }

  lemma KeyOccursOnceMore(pairs: seq<Pair>, pair: Pair, key: Value, at: seq<nat>)
    requires Occurrences(pairs, key, at) && pair.0 == key
    ensures Occurrences(pairs + [pair], key, at + [|pairs|])
  {
    var more, at' := pairs + [pair], at + [|pairs|];
    forall n | 0 <= n < |more| && more[n].0 == key ensures n in at' {
      if n < |pairs| { assert more[n] == pairs[n] && n in at; } else { assert at'[|at|] == n; }
    }
  }

  /** `values` are what `pairs` holds at the positions `at`. */
  ghost predicate ValuesAt(pairs: seq<Pair>, at: seq<nat>, values: seq<Value>) {
    |values| == |at| && forall i :: 0 <= i < |at| ==> at[i] < |pairs| && values[i] == pairs[at[i]].1
  }

  lemma ValuesAtOneMore(pairs: seq<Pair>, pair: Pair, at: seq<nat>, values: seq<Value>)
    requires ValuesAt(pairs, at, values)
    ensures ValuesAt(pairs + [pair], at, values) && ValuesAt(pairs + [pair], at + [|pairs|], values + [pair.1])
  {
    var more := pairs + [pair];
    forall i | 0 <= i < |at| ensures values[i] == more[at[i]].1 {}
  }

  ghost function Positions(pairs: seq<Pair>, key: Value): seq<nat> {
    if pairs == [] then []
    else Positions(pairs[..|pairs| - 1], key) + if pairs[|pairs| - 1].0 == key then [|pairs| - 1] else []
  }

  lemma {:induction false} PositionsAre(pairs: seq<Pair>, key: Value)
    ensures Occurrences(pairs, key, Positions(pairs, key))
    decreases |pairs|
  {
    if pairs != [] {
      var rest, last := pairs[..|pairs| - 1], pairs[|pairs| - 1];
      PositionsAre(rest, key);
      if last.0 == key { KeyOccursOnceMore(rest, last, key, Positions(rest, key)); }
      else { OtherKeyOccursAsBefore(rest, last, key, Positions(rest, key)); }
      assert pairs == rest + [last];
      assert Positions(rest, key) + [] == Positions(rest, key);
    }
  }

  lemma {:induction false} ValuesAtPositions(pairs: seq<Pair>, key: Value)
    ensures ValuesAt(pairs, Positions(pairs, key), ValuesOf(pairs, key))
    decreases |pairs|
  {
    if pairs != [] {
      var rest, last := pairs[..|pairs| - 1], pairs[|pairs| - 1];
      ValuesAtPositions(rest, key);
      ValuesAtOneMore(rest, last, Positions(rest, key), ValuesOf(rest, key));
      assert pairs == rest + [last];
      assert Positions(rest, key) + [] == Positions(rest, key) && ValuesOf(rest, key) + [] == ValuesOf(rest, key);
    }
  }

  /** A key's values are those at the positions where it occurs, in order and none left out. */
  lemma ValuesOfIs(pairs: seq<Pair>, key: Value)
    ensures exists at :: Occurrences(pairs, key, at) && ValuesAt(pairs, at, ValuesOf(pairs, key))
  {
    PositionsAre(pairs, key);
    ValuesAtPositions(pairs, key);
  }

  /** The keys, each where it first occurs. */
  function KeysOf(pairs: seq<Pair>): (r: seq<Value>) {
    if pairs == [] then []
    else
      var rest := KeysOf(pairs[..|pairs| - 1]);
      if pairs[|pairs| - 1].0 in rest then rest else rest + [pairs[|pairs| - 1].0]
  }

  lemma {:induction false} KeysOfIs(pairs: seq<Pair>)
    ensures forall k :: k in KeysOf(pairs) <==> exists n :: 0 <= n < |pairs| && pairs[n].0 == k
    ensures forall i, j :: 0 <= i < j < |KeysOf(pairs)| ==> KeysOf(pairs)[i] != KeysOf(pairs)[j]
    decreases |pairs|
  {
    if pairs != [] {
      var last := |pairs| - 1;
      KeysOfIs(pairs[..last]);
      forall k ensures k in KeysOf(pairs) <==> exists n :: 0 <= n < |pairs| && pairs[n].0 == k {
        assert k in KeysOf(pairs[..last]) <==> exists n :: 0 <= n < last && pairs[..last][n].0 == k;
        assert forall n :: 0 <= n < last ==> pairs[..last][n] == pairs[n];
      }
    }
  }

  /** Position `n` is the first with its key. */
  ghost predicate FirstOf(pairs: seq<Pair>, key: Value, n: nat) {
    n < |pairs| && pairs[n].0 == key && forall m :: 0 <= m < n ==> pairs[m].0 != key
  }

  /** `first` are where the keys first occur, in order. */
  ghost predicate InOrder(pairs: seq<Pair>, keys: seq<Value>, first: seq<nat>) {
    && |first| == |keys| && (forall i, j :: 0 <= i < j < |first| ==> first[i] < first[j])
    && forall i :: 0 <= i < |first| ==> FirstOf(pairs, keys[i], first[i])
  }

  lemma KnownKeyKeepsOrder(pairs: seq<Pair>, pair: Pair, keys: seq<Value>, first: seq<nat>)
    requires InOrder(pairs, keys, first)
    ensures InOrder(pairs + [pair], keys, first)
  {
    forall i | 0 <= i < |first| ensures FirstOf(pairs + [pair], keys[i], first[i]) {
      assert FirstOf(pairs, keys[i], first[i]);
    }
  }

  lemma NewKeyKeepsOrder(pairs: seq<Pair>, pair: Pair, keys: seq<Value>, first: seq<nat>)
    requires InOrder(pairs, keys, first) && forall n :: 0 <= n < |pairs| ==> pairs[n].0 != pair.0
    ensures InOrder(pairs + [pair], keys + [pair.0], first + [|pairs|])
  {
    KnownKeyKeepsOrder(pairs, pair, keys, first);
    assert forall i :: 0 <= i < |first| ==> FirstOf(pairs, keys[i], first[i]);
    assert FirstOf(pairs + [pair], pair.0, |pairs|);
  }

  /** Keys are listed in the order in which they first occur. */
  lemma {:induction false} KeysOfInOrder(pairs: seq<Pair>)
    ensures exists first: seq<nat> :: InOrder(pairs, KeysOf(pairs), first)
    decreases |pairs|
  {
    if pairs == [] {
      assert InOrder(pairs, KeysOf(pairs), []);
    } else {
      var rest, last := pairs[..|pairs| - 1], pairs[|pairs| - 1];
      assert pairs == rest + [last];
      KeysOfInOrder(rest);
      var first: seq<nat> :| InOrder(rest, KeysOf(rest), first);
      if last.0 in KeysOf(rest) {
        KnownKeyKeepsOrder(rest, last, KeysOf(rest), first);
        assert InOrder(pairs, KeysOf(pairs), first);
      } else {
        KeysOfIs(rest);
        NewKeyKeepsOrder(rest, last, KeysOf(rest), first);
        assert InOrder(pairs, KeysOf(pairs), first + [|rest|]);
      }
    }
  }

  /** A dictionary of lists, in insertion order. */
  datatype Grouped = Grouped(order: seq<Value>, values: map<Value, seq<Value>>)

  function GroupBy(pairs: seq<Pair>): Grouped {
    Grouped(KeysOf(pairs), map k | k in KeysOf(pairs) :: ValuesOf(pairs, k))
  }

  /** `grouped.setdefault(key, []).append(value)`. */
  function Append(g: Grouped, key: Value, value: Value): Grouped {
    if key in g.values then g.(values := g.values[key := g.values[key] + [value]])
    else Grouped(g.order + [key], g.values[key := [value]])
  }

  lemma {:induction false} NoValues(pairs: seq<Pair>, key: Value)
    requires forall n :: 0 <= n < |pairs| ==> pairs[n].0 != key
    ensures ValuesOf(pairs, key) == []
    decreases |pairs|
  {
    if pairs != [] { NoValues(pairs[..|pairs| - 1], key); }
  }

  lemma GroupByAppend(pairs: seq<Pair>, pair: Pair)
    ensures GroupBy(pairs + [pair]) == Append(GroupBy(pairs), pair.0, pair.1)
  {
    var more := pairs + [pair];
    assert more[..|more| - 1] == pairs;
    KeysOfIs(pairs);
    if pair.0 !in KeysOf(pairs) { NoValues(pairs, pair.0); }
    var a, b := GroupBy(more).values, Append(GroupBy(pairs), pair.0, pair.1).values;
    forall k | k in a ensures k in b && a[k] == b[k] {}
    assert a.Keys == b.Keys;
  }

  /** The inner loop: one partition's pairs. */
  method AddPairs(g: Grouped, ghost pairs: seq<Pair>, items: seq<Value>) returns (r: Result<Grouped>)
    requires g == GroupBy(pairs)
    ensures r.Ok? <==> AllUnpack(items)
    ensures r.Ok? ==> r.value == GroupBy(pairs + Unpacked(items))
  {
    var h := g;
    assert pairs + [] == pairs;
    for n := 0 to |items|
      invariant AllUnpack(items[..n]) && h == GroupBy(pairs + Unpacked(items[..n]))
    {
      var pair := Unpack(items[n]);
      if pair.None? { return Err("not a key and a value"); }
      assert items[..n + 1] == items[..n] + [items[n]];
      assert pairs + Unpacked(items[..n + 1]) == pairs + Unpacked(items[..n]) + [pair.value];
      GroupByAppend(pairs + Unpacked(items[..n]), pair.value);
      h := Append(h, pair.value.0, pair.value.1);
    }
    assert items[..|items|] == items;
    return Ok(h);
  }

  /** What a partition hands to the shuffle; nothing when it failed or its data is null. */
  function Emitted(result: Intermediate): Option<seq<Value>> {
    if result.data.None? || result.data.value.Null? then Some([]) else Items(result.data.value)
  }

  /** Everything the partitions hand on, in order, or `None` when something is no pair. */
  function AllPairs(results: seq<Intermediate>): Option<seq<Pair>> {
    if results == [] then Some([])
    else
      var rest := AllPairs(results[..|results| - 1]);
      var items := Emitted(results[|results| - 1]);
      if rest.Some? && items.Some? && AllUnpack(items.value) then Some(rest.value + Unpacked(items.value)) else None
  }

  lemma {:induction false} AllPairsPrefix(results: seq<Intermediate>, n: nat)
    requires n <= |results| && AllPairs(results).Some?
    ensures AllPairs(results[..n]).Some?
    decreases |results|
  {
    if n < |results| {
      AllPairsPrefix(results[..|results| - 1], n);
      assert results[..|results| - 1][..n] == results[..n];
    } else {
      assert results[..n] == results;
    }
  }

  /** One partition: nothing when it failed or its data is null, otherwise the items of its data, each
      unpacked; an error when the data has no items or an item is no pair. */
  lemma AllPairsOfOne(one: Intermediate)
    ensures AllPairs([]) == Some([])
    ensures one.data.None? || one.data == Some(Null) ==> AllPairs([one]) == Some([])
    ensures one.data.Some? && one.data != Some(Null) ==>
              var items := Items(one.data.value);
              && (AllPairs([one]).Some? <==> items.Some? && AllUnpack(items.value))
              && (AllPairs([one]).Some? ==> AllPairs([one]).value == Unpacked(items.value))
  {
    assert [one][..0] == [] && AllPairs([]) == Some([]);
    assert Unpacked([]) == [];
    var items := Emitted(one);
    if items.Some? && AllUnpack(items.value) { assert [] + Unpacked(items.value) == Unpacked(items.value); }
  }

  function Join(a: Option<seq<Pair>>, b: Option<seq<Pair>>): Option<seq<Pair>> {
    if a.Some? && b.Some? then Some(a.value + b.value) else None
  }

  lemma OneMorePart(a: seq<Intermediate>, one: Intermediate)
    ensures AllPairs(a + [one]) == Join(AllPairs(a), AllPairs([one]))
  {
    assert (a + [one])[..|a|] == a && [one][..0] == [];
    var items := Emitted(one);
    if items.Some? && AllUnpack(items.value) { assert [] + Unpacked(items.value) == Unpacked(items.value); }
  }

  /** The pairs of two stretches of partitions are those of the first, then those of the second, or
      an error if either has one. */
  lemma {:induction false} AllPairsParts(a: seq<Intermediate>, b: seq<Intermediate>)
    ensures AllPairs(a + b) == Join(AllPairs(a), AllPairs(b))
    decreases |b|
  {
    if b == [] {
      assert a + b == a;
      if AllPairs(a).Some? { assert AllPairs(a).value + [] == AllPairs(a).value; }
    } else {
      var rest, one := b[..|b| - 1], b[|b| - 1];
      AllPairsParts(a, rest);
      OneMorePart(a + rest, one);
      OneMorePart(rest, one);
      assert a + b == a + rest + [one] && b == rest + [one];
      JoinAssociates(AllPairs(a), AllPairs(rest), AllPairs([one]));
    }
  }

  lemma JoinAssociates(a: Option<seq<Pair>>, b: Option<seq<Pair>>, c: Option<seq<Pair>>)
    ensures Join(Join(a, b), c) == Join(a, Join(b, c))
  {
    if a.Some? && b.Some? && c.Some? { assert a.value + b.value + c.value == a.value + (b.value + c.value); }
  }

  /** `shuffle`: each key gets its values in partition order, then in order within a partition. */
  method Shuffle(results: seq<Intermediate>) returns (r: Result<Grouped>)
    ensures r.Ok? <==> AllPairs(results).Some?
    ensures r.Ok? ==> r.value == GroupBy(AllPairs(results).value)
  {
    var grouped := Grouped([], map[]);
    for n := 0 to |results|
      invariant AllPairs(results[..n]).Some? && grouped == GroupBy(AllPairs(results[..n]).value)
    {
      assert results[..n + 1][..n] == results[..n];
      if AllPairs(results).Some? { AllPairsPrefix(results, n + 1); }
      var items := Emitted(results[n]);
      if items.None? { return Err("data is not iterable"); }
      var more := AddPairs(grouped, AllPairs(results[..n]).value, items.value);
      if more.Err? { return more; }
      grouped := more.value;
    }
    assert results[..|results|] == results;
    return Ok(grouped);
  }

  // ----- Reduce -----

  function ReducePayloads(op: ReduceOperation, g: Grouped): (r: seq<Payload>)
    requires forall k :: k in g.order ==> k in g.values
    ensures |r| == |g.order| && forall i :: 0 <= i < |g.order| ==> r[i] == ReducePayload(op, g.order[i], g.values[g.order[i]])
  {
    seq(|g.order|, i requires 0 <= i < |g.order| => ReducePayload(op, g.order[i], g.values[g.order[i]]))
  }

  /** `collect_reduce_results`: every key's result, or an error; never some of the keys. */
  method CollectReduceResults(job: string, keys: seq<Value>, responses: seq<Response>) returns (r: Result<map<Value, Value>>)
    ensures r.Ok? <==> forall k :: k in keys ==> Won(responses, ReduceTaskId(job, k)).Some?
    ensures r.Ok? ==> r.value == map k | k in keys :: Won(responses, ReduceTaskId(job, k)).value
  {
    var reduced := map[];
    for n := 0 to |keys|
      invariant forall k :: k in keys[..n] ==> Won(responses, ReduceTaskId(job, k)).Some?
      invariant reduced == map k | k in keys[..n] :: Won(responses, ReduceTaskId(job, k)).value
    {
      assert keys[..n + 1] == keys[..n] + [keys[n]];
      var result := Won(responses, ReduceTaskId(job, keys[n]));
      if result.None? { return Err("No successful response"); }
      reduced := reduced[keys[n] := result.value];
    }
    assert keys[..|keys|] == keys;
    return Ok(reduced);
  }
}
