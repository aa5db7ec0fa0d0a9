/** The worker registry as the master updates it: a dictionary in registration order. */
module Registry {
  import opened Entities
  import opened Protocol

  predicate IsOverdue(workers: map<string, Worker>, beats: map<string, int>, before: int, w: string) {
    w in workers && w in beats && !workers[w].status.Stopped? && beats[w] < before
  }

  /** Among the first `n` registered, those not STOPPED and last heard of before `before`, in order. */
  ghost function Overdue(workers: map<string, Worker>, beats: map<string, int>, order: seq<string>, n: nat, before: int): seq<string>
    requires n <= |order|
  {
    if n == 0 then []
    else Overdue(workers, beats, order, n - 1, before) + if IsOverdue(workers, beats, before, order[n - 1]) then [order[n - 1]] else []
  }

  lemma {:induction false} OverdueExactly(workers: map<string, Worker>, beats: map<string, int>, order: seq<string>, n: nat, before: int, w: string)
    requires n <= |order|
    ensures w in Overdue(workers, beats, order, n, before) <==>
              IsOverdue(workers, beats, before, w) && exists k :: 0 <= k < n && order[k] == w
  {
    if n > 0 { OverdueExactly(workers, beats, order, n - 1, before, w); }
  }

  /** `picked` stands in `order` before position `n`, in that order, at the positions `at`. */
  ghost predicate PickedAt(order: seq<string>, n: nat, picked: seq<string>, at: seq<nat>) {
    && |at| == |picked| && n <= |order|
    && (forall i, j :: 0 <= i < j < |at| ==> at[i] < at[j])
    && (forall i :: 0 <= i < |at| ==> at[i] < n && order[at[i]] == picked[i])
  }

  ghost predicate InOrderOf(order: seq<string>, n: nat, picked: seq<string>) { exists at: seq<nat> :: PickedAt(order, n, picked, at) }

  lemma PickNext(order: seq<string>, n: nat, picked: seq<string>)
    requires n < |order| && InOrderOf(order, n, picked)
    ensures InOrderOf(order, n + 1, picked) && InOrderOf(order, n + 1, picked + [order[n]])
  {
    var at: seq<nat> :| PickedAt(order, n, picked, at);
    assert PickedAt(order, n + 1, picked, at);
    assert PickedAt(order, n + 1, picked + [order[n]], at + [n]);
  }

  lemma {:induction false} OverdueInOrder(workers: map<string, Worker>, beats: map<string, int>, order: seq<string>, n: nat, before: int)
    requires n <= |order|
    ensures InOrderOf(order, n, Overdue(workers, beats, order, n, before))
  {
    if n == 0 {
      assert PickedAt(order, 0, [], []);
    } else {
      OverdueInOrder(workers, beats, order, n - 1, before);
      PickNext(order, n - 1, Overdue(workers, beats, order, n - 1, before));
      assert Overdue(workers, beats, order, n - 1, before) + [] == Overdue(workers, beats, order, n - 1, before);
    }
  }

  function Elements(ws: seq<string>): set<string> { set w | w in ws }

  lemma FailOneMore(workers: map<string, Worker>, ws: seq<string>, w: string)
    requires w in workers
    ensures FailWorkers(workers, Elements(ws + [w])) ==
              FailWorkers(workers, Elements(ws))[w := workers[w].(status := WorkerFailed)]
  {
  }

  /** The first IDLE worker in registration order. */
  ghost predicate IsFirstIdle(workers: map<string, Worker>, order: seq<string>, w: string) {
    exists n :: 0 <= n < |order| && order[n] == w && w in workers && workers[w].status.Idle?
      && forall k :: 0 <= k < n ==> order[k] in workers && !workers[order[k]].status.Idle?
  }

  class WorkerManager {
    var workers: map<string, Worker>
    var order: seq<string>
    var beats: map<string, int>

    ghost predicate Valid()
      reads this
    {
      && Distinct(order)
      && (forall w :: w in order <==> w in workers)
      && beats.Keys == workers.Keys
    }

    constructor ()
      ensures Valid() && workers == map[] && order == [] && beats == map[]
    {
      workers, order, beats := map[], [], map[];
    }

    /** A new id joins at the end; a FAILED or STOPPED one is replaced in place, a generation up. */
    method Register(w: string, host: string, port: int, now: int) returns (r: Result<nat>)
      requires Valid()
      modifies this
      ensures Valid()
      ensures r.Ok? <==> RegistrationAccepted(old(workers), w, host, port)
      ensures r.Ok? ==> workers == RegisterWorker(old(workers), w, host, port) && r.value == workers[w].generation
      ensures r.Ok? ==> workers[w] == Worker(host, port, Idle, if w in old(workers) then old(workers)[w].generation + 1 else 1)
      ensures r.Ok? ==> beats == old(beats)[w := now]
      ensures r.Ok? ==> order == old(order) + if w in old(workers) then [] else [w]
      ensures r.Err? ==> unchanged(this)
      ensures r.Err? ==> (r.reason == "DUPLICATE_WORKER" <==> RegistrationValid(w, host, port))
    {
      if |w| == 0 || |host| == 0 || !(0 < port < 65536) { return Err("INVALID_PAYLOAD"); }
      if w in workers {
        var existing := workers[w];
        if !existing.status.WorkerFailed? && !existing.status.Stopped? { return Err("DUPLICATE_WORKER"); }
        workers := workers[w := existing.(host := host, port := port, status := Idle, generation := existing.generation + 1)];
      } else {
        workers, order := workers[w := Worker(host, port, Idle, 1)], order + [w];
      }
      beats := beats[w := now];
      return Ok(workers[w].generation);
    }

    method UpdateStatus(w: string, status: WorkerStatus) returns (known: bool)
      requires Valid()
      modifies `workers
      ensures Valid() && known == (w in old(workers))
      ensures workers == if known then old(workers)[w := old(workers)[w].(status := status)] else old(workers)
    {
      known := w in workers;
      if known { workers := workers[w := workers[w].(status := status)]; }
    }

    method RecordHeartbeat(w: string, now: int) returns (known: bool)
      requires Valid()
      modifies `beats
      ensures Valid() && known == (w in workers)
      ensures beats == if known then old(beats)[w := now] else old(beats)
    {
      known := w in workers;
      if known { beats := beats[w := now]; }
    }

    /** Marks FAILED, and returns in registration order, exactly the workers that are not STOPPED
        and were last heard of more than `timeout` ago. */
    method GetStaleWorkers(now: int, timeout: int) returns (stale: seq<string>)
      requires Valid()
      modifies `workers
      ensures Valid()
      ensures stale == Overdue(old(workers), beats, order, |order|, now - timeout)
      ensures workers == FailWorkers(old(workers), Elements(stale))
    {
      stale := [];
      ghost var before := workers;
      var n := 0;
      while n < |order|
        invariant n <= |order| && workers.Keys == before.Keys
        invariant stale == Overdue(before, beats, order, n, now - timeout)
        invariant workers == FailWorkers(before, Elements(stale))
      {
        var w := order[n];
        OverdueExactly(before, beats, order, n, now - timeout, w);
        if !workers[w].status.Stopped? && now - beats[w] > timeout {
          FailOneMore(before, stale, w);
          workers := workers[w := workers[w].(status := WorkerFailed)];
          stale := stale + [w];
        }
        n := n + 1;
      }
    }

    method FirstIdle() returns (r: Option<string>)
      requires Valid()
      ensures r.Some? ==> IsFirstIdle(workers, order, r.value) && r.value in workers
      ensures r.None? ==> forall w :: w in workers ==> !workers[w].status.Idle?
    {
      for n := 0 to |order|
        invariant forall k :: 0 <= k < n ==> order[k] in workers && !workers[order[k]].status.Idle?
      {
        if workers[order[n]].status.Idle? { return Some(order[n]); }
      }
      return None;
    }

    /** `handle_shutdown`. */
    method Drain(w: string) returns (known: bool)
      requires Valid()
      modifies `workers
      ensures Valid() && known == (w in old(workers)) && workers == DrainWorker(old(workers), w)
      ensures known ==> w in workers && !workers[w].status.Registered? && !workers[w].status.Idle? && !workers[w].status.Busy?
      ensures forall v :: v in workers <==> v in old(workers)
      ensures forall v :: v in workers && workers[v] != old(workers)[v] ==> v == w && workers[v] == old(workers)[v].(status := Draining)
    {
      known := w in workers;
      if known {
        var status := workers[w].status;
        if status.Registered? || status.Idle? || status.Busy? { var _ := UpdateStatus(w, Draining); }
      }
    }
  }
}
