/** What running a MAP or REDUCE payload on a worker yields. */
module Execution {
  import opened Entities

  /** The functions registered on every worker, as MAP and as REDUCE call them. */
  datatype Functions = Functions(mappers: map<string, Mapper>, reducers: map<string, Reducer>)

  const INVALID_ARGUMENTS := "INVALID_ARGUMENTS"
  const UNKNOWN_OPERATION := "UNKNOWN_OPERATION"
  const USER_FUNCTION_ERROR := "USER_FUNCTION_ERROR"

  // ----- MAP -----

  function OnNumber(f: int -> int): Mapper {
    (v: Value) => if v.Num? then Success(Num(f(v.n))) else Failure(INVALID_ARGUMENTS, "MAP data must contain only numeric values")
  }

  function WordCount(v: Value): Outcome {
    if v.Str? && |v.text| > 0 then Success(List([v, Num(1)]))
    else Failure(INVALID_ARGUMENTS, "WORD_COUNT data must contain only non-empty strings")
  }

  function BuiltInMap(name: string): Option<Mapper> {
    if name == "SQUARE" then Some(OnNumber(x => x * x))
    else if name == "DOUBLE" then Some(OnNumber(x => x * 2))
    else if name == "INCREMENT" then Some(OnNumber(x => x + 1))
    else if name == "NEGATE" then Some(OnNumber(x => -x))
    else if name == "WORD_COUNT" then Some(WordCount)
    else None
  }

  function UserOutcome(r: Outcome): Outcome {
    if r.Success? then r else Failure(USER_FUNCTION_ERROR, r.message)
  }

  /** What one element is put through: built-ins shadow registered functions of the same name. */
  function MapperFor(fs: Functions, op: MapOperation): Option<Mapper> {
    match op
    case ShippedMap(f) => Some(v => UserOutcome(f(v)))
    case NamedMap(name) =>
      if BuiltInMap(name).Some? then BuiltInMap(name)
      else if name in fs.mappers then (var f := fs.mappers[name]; Some(v => UserOutcome(f(v))))
      else None
  }

  /** The same as a total function: with an unknown operation every element fails. */
  function ElementMapper(fs: Functions, op: MapOperation): Mapper {
    if MapperFor(fs, op).Some? then MapperFor(fs, op).value
    else (v: Value) => Failure(UNKNOWN_OPERATION, "Unsupported MAP operation")
  }

  predicate AllMap(f: Mapper, data: seq<Value>) {
    forall n :: 0 <= n < |data| ==> f(data[n]).Success?
  }

  function Mapped(f: Mapper, data: seq<Value>): (r: seq<Value>)
    requires AllMap(f, data)
    ensures |r| == |data| && forall n :: 0 <= n < |data| ==> f(data[n]) == Success(r[n])
  {
    seq(|data|, n requires 0 <= n < |data| => f(data[n]).result)
  }

  /** The first element from `n` on that fails, or the end. */
  function FirstFailure(f: Mapper, data: seq<Value>, n: nat): (k: nat)
    requires n <= |data|
    ensures n <= k <= |data| && (forall i :: n <= i < k ==> f(data[i]).Success?) && (k < |data| ==> f(data[k]).Failure?)
    decreases |data| - n
  {
    if n == |data| || f(data[n]).Failure? then n else FirstFailure(f, data, n + 1)
  }

  /** `r` lists what `f` makes of each element, in order. */
  ghost predicate ListsResults(f: Mapper, data: seq<Value>, r: Outcome) {
    && r.Success? && r.result.List? && |r.result.items| == |data|
    && forall n :: 0 <= n < |data| ==> f(data[n]) == Success(r.result.items[n])
  }

  /** `r` is the failure of element `k`, the first that fails. */
  ghost predicate IsFirstFailure(f: Mapper, data: seq<Value>, r: Outcome, k: nat) {
    && k < |data| && r == f(data[k]) && r.Failure?
    && forall n :: 0 <= n < k ==> f(data[n]).Success?
  }

  /** The elements' results in order, or the failure of the first element that fails. */
  function MapAll(f: Mapper, data: seq<Value>): (r: Outcome)
    ensures r.Success? <==> AllMap(f, data)
    ensures r.Success? ==> ListsResults(f, data, r)
    ensures r.Failure? ==> exists k :: IsFirstFailure(f, data, r, k)
  {
    var k := FirstFailure(f, data, 0);
    if k == |data| then Success(List(Mapped(f, data)))
    else
      assert IsFirstFailure(f, data, f(data[k]), k);
      f(data[k])
  }

  method ApplyToEach(f: Mapper, data: seq<Value>) returns (r: Outcome)
    ensures r == MapAll(f, data)
    ensures r.Success? ==> ListsResults(f, data, r)
    ensures r.Failure? ==> exists k :: IsFirstFailure(f, data, r, k)
  {
    var mapped := [];
    for n := 0 to |data|
      invariant AllMap(f, data[..n]) && mapped == Mapped(f, data[..n])
      invariant FirstFailure(f, data, 0) == FirstFailure(f, data, n)
    {
      var one := f(data[n]);
      if one.Failure? { return one; }
      mapped := mapped + [one.result];
      assert data[..n + 1] == data[..n] + [data[n]];
    }
    assert data[..|data|] == data;
    return Success(List(mapped));
  }

  /** Mapping two parts is mapping the whole: the law a partitioned MAP rests on. */
  lemma MapAllParts(f: Mapper, a: seq<Value>, b: seq<Value>)
    ensures AllMap(f, a + b) <==> AllMap(f, a) && AllMap(f, b)
    ensures AllMap(f, a + b) ==> Mapped(f, a + b) == Mapped(f, a) + Mapped(f, b)
  {
    var ab := a + b;
    assert forall n :: 0 <= n < |a| ==> a[n] == ab[n];
    assert forall n :: 0 <= n < |b| ==> b[n] == ab[|a| + n];
  }

  function ExecuteMap(fs: Functions, op: MapOperation, data: seq<Value>): Outcome {
    var f := MapperFor(fs, op);
    if f.None? then Failure(UNKNOWN_OPERATION, "Unsupported MAP operation") else MapAll(f.value, data)
  }

  /** The built-in operations, whatever is registered: the four on numbers fail on anything else,
      and WORD_COUNT pairs a non-empty text with one. */
  lemma BuiltInMapsAre(fs: Functions, v: Value)
    ensures var square, double := ElementMapper(fs, NamedMap("SQUARE"))(v), ElementMapper(fs, NamedMap("DOUBLE"))(v);
            var increment, negate := ElementMapper(fs, NamedMap("INCREMENT"))(v), ElementMapper(fs, NamedMap("NEGATE"))(v);
            if v.Num? then
              && square == Success(Num(v.n * v.n)) && double == Success(Num(v.n + v.n))
              && increment == Success(Num(v.n + 1)) && negate == Success(Num(0 - v.n))
            else
              forall r :: r in [square, double, increment, negate] ==> r.Failure? && r.code == INVALID_ARGUMENTS
    ensures var count := ElementMapper(fs, NamedMap("WORD_COUNT"))(v);
            if v.Str? && v.text != "" then count == Success(List([v, Num(1)]))
            else count.Failure? && count.code == INVALID_ARGUMENTS
  {
    assert "SQUARE" != "DOUBLE" && "SQUARE"[0] != "INCREMENT"[0] && "DOUBLE"[0] != "INCREMENT"[0];
    assert "NEGATE"[0] == 'N' && "WORD_COUNT"[0] == 'W' && "SQUARE"[0] == 'S' && "DOUBLE"[0] == 'D' && "INCREMENT"[0] == 'I';
  }

  /** A registered function is applied only under a name no built-in has, and what it raises is
      reported as its own error; a name neither knows fails every element. */
  lemma RegisteredMapsAre(fs: Functions, name: string, v: Value)
    requires name !in ["SQUARE", "DOUBLE", "INCREMENT", "NEGATE", "WORD_COUNT"]
    ensures var r := ElementMapper(fs, NamedMap(name))(v);
            if name !in fs.mappers then r.Failure? && r.code == UNKNOWN_OPERATION
            else if fs.mappers[name](v).Success? then r == fs.mappers[name](v)
            else r == Failure(USER_FUNCTION_ERROR, fs.mappers[name](v).message)
  {
    assert forall n :: n in ["SQUARE", "DOUBLE", "INCREMENT", "NEGATE", "WORD_COUNT"] ==> n != name;
  }

  // ----- REDUCE -----

  predicate AllNumbers(values: seq<Value>) { forall n :: 0 <= n < |values| ==> values[n].Num? }

  function Sum(values: seq<Value>): int
    requires AllNumbers(values)
  {
    if values == [] then 0 else Sum(values[..|values| - 1]) + values[|values| - 1].n
  }

  lemma {:induction false} SumParts(a: seq<Value>, b: seq<Value>)
    requires AllNumbers(a) && AllNumbers(b)
    ensures AllNumbers(a + b) && Sum(a + b) == Sum(a) + Sum(b)
    decreases |b|
  {
    if b == [] {
      assert a + b == a;
    } else {
      SumParts(a, b[..|b| - 1]);
      assert (a + b)[..|a + b| - 1] == a + b[..|b| - 1];
    }
  }

  lemma SumOfOne(x: int)
    ensures Sum([]) == 0 && Sum([Num(x)]) == x
  {
    assert [Num(x)][..0] == [];
  }

  /** What `max` finds, or `min` with `sign` -1. */
  function Extreme(values: seq<Value>, sign: int): (r: int)
    requires values != [] && AllNumbers(values)
    ensures (exists n :: 0 <= n < |values| && values[n].n == r) && forall n :: 0 <= n < |values| ==> values[n].n * sign <= r * sign
  {
    var last := values[|values| - 1].n;
    if |values| == 1 then last
    else
      var best := Extreme(values[..|values| - 1], sign);
      if last * sign > best * sign then last else best
  }

  predicate IsBuiltInReduce(name: string) { name in {"SUM", "COUNT", "MAX", "MIN"} }

  function ReduceNumbers(name: string, values: seq<Value>): int
    requires IsBuiltInReduce(name) && values != [] && AllNumbers(values)
  {
    if name == "SUM" then Sum(values)
    else if name == "COUNT" then |values|
    else Extreme(values, if name == "MAX" then 1 else -1)
  }

  function ExecuteReduce(fs: Functions, op: ReduceOperation, values: seq<Value>): Outcome {
    if values == [] then Failure(INVALID_ARGUMENTS, "payload must contain a non-empty list field 'values'")
    else match op
      case ShippedReduce(g) => UserOutcome(g(values))
      case NamedReduce(name) =>
        if IsBuiltInReduce(name) then
          if AllNumbers(values) then Success(Num(ReduceNumbers(name, values)))
          else Failure(INVALID_ARGUMENTS, "REDUCE values must contain only numeric values")
        else if name in fs.reducers then UserOutcome(fs.reducers[name](values))
        else Failure(UNKNOWN_OPERATION, "Unsupported REDUCE operation")
  }

  /** `m` is one of the values, and none of them is on the wrong side of it. */
  ghost predicate IsGreatest(values: seq<Value>, m: int) {
    Num(m) in values && forall n :: 0 <= n < |values| ==> values[n].Num? && values[n].n <= m
  }

  ghost predicate IsLeast(values: seq<Value>, m: int) {
    Num(m) in values && forall n :: 0 <= n < |values| ==> values[n].Num? && m <= values[n].n
  }

  /** The built-in reductions of any values, whatever is registered: on numbers a total, the number
      of values, the greatest and the least of them; on anything else an error. */
  lemma BuiltInReducesAre(fs: Functions, values: seq<Value>)
    ensures var sum, count := ExecuteReduce(fs, NamedReduce("SUM"), values), ExecuteReduce(fs, NamedReduce("COUNT"), values);
            var max, min := ExecuteReduce(fs, NamedReduce("MAX"), values), ExecuteReduce(fs, NamedReduce("MIN"), values);
            if values == [] || !AllNumbers(values) then
              forall r :: r in [sum, count, max, min] ==> r.Failure? && r.code == INVALID_ARGUMENTS
            else
              && sum == Success(Num(Sum(values))) && count == Success(Num(|values|))
              && (exists m :: max == Success(Num(m)) && IsGreatest(values, m))
              && (exists m :: min == Success(Num(m)) && IsLeast(values, m))
  {
    if values != [] && AllNumbers(values) {
      var greatest, least := Extreme(values, 1), Extreme(values, -1);
      assert "MAX"[1] != "MIN"[1];
      assert ExecuteReduce(fs, NamedReduce("MAX"), values) == Success(Num(greatest)) && IsGreatest(values, greatest);
      assert ExecuteReduce(fs, NamedReduce("MIN"), values) == Success(Num(least)) && IsLeast(values, least);
    }
  }

  /** A sum of sums: SUM over two groups of values is the total of what it gives on each. */
  lemma SumReduces(fs: Functions, a: seq<Value>, b: seq<Value>)
    requires a != [] && AllNumbers(a) && b != [] && AllNumbers(b)
    ensures var sum := (values: seq<Value>) => ExecuteReduce(fs, NamedReduce("SUM"), values);
            sum(a).Success? && sum(b).Success? && sum([sum(a).result, sum(b).result]) == sum(a + b)
  {
    SumParts(a, b);
    var x, y := Sum(a), Sum(b);
    SumParts([Num(x)], [Num(y)]);
    SumOfOne(x);
    SumOfOne(y);
    assert [Num(x)] + [Num(y)] == [Num(x), Num(y)];
  }

  // ----- Tasks -----

  /** `execute_task` for the two job task types; another payload lacks their list field. */
  function Execute(fs: Functions, taskType: string, payload: Payload): Outcome {
    if taskType == "MAP" then
      if payload.MapPayload? then ExecuteMap(fs, payload.mapOp, payload.data)
      else Failure(INVALID_ARGUMENTS, "payload must contain a list field 'data'")
    else if taskType == "REDUCE" then
      if payload.ReducePayload? then ExecuteReduce(fs, payload.reduceOp, payload.values)
      else Failure(INVALID_ARGUMENTS, "payload must contain a non-empty list field 'values'")
    else Failure(UNKNOWN_OPERATION, "Unsupported task type")
  }
}
