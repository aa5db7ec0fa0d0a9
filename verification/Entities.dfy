/** The records the master, the workers and the jobs exchange. */
module Entities {

  datatype Option<+T> = None | Some(value: T)

  datatype Result<+T> = Ok(value: T) | Err(reason: string)

  /** A JSON value as tasks carry it: no booleans, floats or objects. */
  datatype Value =
    | Null
    | Num(n: int)
    | Str(text: string)
    | List(items: seq<Value>)

  /** What running a task's payload on a worker produces. */
  datatype Outcome =
    | Success(result: Value)
    | Failure(code: string, message: string)

  /** A callable, named or shipped: a total function that may fail. */
  type Mapper = Value -> Outcome
  type Reducer = seq<Value> -> Outcome

  datatype MapOperation = NamedMap(name: string) | ShippedMap(map_: Mapper)
  datatype ReduceOperation = NamedReduce(name: string) | ShippedReduce(reduce: Reducer)

  datatype Payload =
    | MapPayload(mapOp: MapOperation, data: seq<Value>)
    | ReducePayload(reduceOp: ReduceOperation, key: Value, values: seq<Value>)
    | OtherPayload(arguments: seq<Value>)

  datatype TaskStatus = Pending | Assigned | Running | Completed | TaskFailed

  datatype Task = Task(
    taskType: string,
    payload: Payload,
    status: TaskStatus,
    worker: Option<string>,
    attempt: nat)
  {
    predicate InFlight() { status.Assigned? || status.Running? }
    predicate Terminal() { status.Completed? || status.TaskFailed? }
    predicate OwnedBy(w: string) { InFlight() && worker == Some(w) }
    predicate IsAttempt(w: string, a: nat) { worker == Some(w) && attempt == a }
  }

  datatype WorkerStatus = Registered | Idle | Busy | WorkerFailed | Draining | Stopped

  datatype Worker = Worker(host: string, port: int, status: WorkerStatus, generation: nat)

  /** Message bodies a connection's read loop tells apart. A TASK_RESULT is only checked to carry an
      object, so it may lack a status; `claimed` is the task id it then names, if any. */
  datatype Body =
    | Register(workerId: string, host: string, port: int)
    | Shutdown(workerId: string)
    | Heartbeat(workerId: string)
    | TaskResult(taskId: string, attempt: nat, outcome: Outcome)
    | StatuslessResult(claimed: Option<string>)
    | OtherBody(kind: string)

  datatype Message = Message(requestId: string, body: Body)

  /** What a dispatch hands back: the worker's reply, or the error the master builds itself. */
  datatype Response =
    | WorkerReply(message: Message)
    | Unreachable(taskId: string, attempt: nat)
  {
    /** `payload.get("task_id")`. */
    function TaskId(): Option<string> {
      match this
      case WorkerReply(m) =>
        if m.body.TaskResult? then Some(m.body.taskId) else if m.body.StatuslessResult? then m.body.claimed else None
      case Unreachable(t, _) => Some(t)
    }

    predicate Carries(t: string, a: nat) {
      match this
      case WorkerReply(m) => m.body.TaskResult? && m.body.taskId == t && m.body.attempt == a
      case Unreachable(t', a') => t' == t && a' == a
    }
  }

  const MAX_TASK_ATTEMPTS: nat := 3
}
