/** The multiprocessing backend: how many calls it admits at once, and what its counters mean. */
module Backend {
  import opened Entities

  datatype Ending = Succeeded | Errored | Broken | Cancelled

  /** An `execute` call that was counted: waiting for a permit of a semaphore, running in a pool
      (holding a permit if there was a semaphore), or over. */
  datatype Call =
    | Queued(semaphore: nat)
    | InPool(permit: Option<nat>, pool: nat)
    | Over(how: Ending)

  datatype Metrics = Metrics(submitted: int, running: int, completed: int, failed: int, backendErrors: int)

  const ZERO := Metrics(0, 0, 0, 0, 0)

  /** `free` has the free permits of every semaphore created so far, `pools` counts the pools, and
      `base` is the number of calls that had been counted when the counters were last reset. */
  datatype State = State(
    limit: Option<nat>,
    pool: Option<nat>,
    pools: nat,
    semaphore: Option<nat>,
    free: seq<nat>,
    metrics: Metrics,
    calls: seq<Call>,
    base: nat)

  function Created(limit: Option<nat>): State { State(limit, None, 0, None, [], ZERO, [], 0) }

  datatype Step =
    | Start
    | Stop
    | Execute
    | Grant(call: nat)
    | Finish(call: nat, how: Ending)
    | Cancel(call: nat)

  ghost predicate Typed(s: State) {
    && s.base <= |s.calls|
    && (s.semaphore.Some? ==> s.semaphore.value < |s.free|)
    && (forall c :: 0 <= c < |s.calls| && s.calls[c].Queued? ==> s.calls[c].semaphore < |s.free|)
    && (forall c :: 0 <= c < |s.calls| && s.calls[c].InPool? && s.calls[c].permit.Some? ==> s.calls[c].permit.value < |s.free|)
  }

  predicate Enabled(s: State, step: Step) {
    match step
    case Grant(c) => c < |s.calls| && s.calls[c].Queued? && s.calls[c].semaphore < |s.free| && s.free[s.calls[c].semaphore] > 0
    case Finish(c, how) => c < |s.calls| && s.calls[c].InPool? && !how.Cancelled?
    case Cancel(c) => c < |s.calls| && !s.calls[c].Over?
    case _ => true
  }

  // ----- Steps -----

  function DoStart(s: State): State {
    s.(pool := Some(s.pools), pools := s.pools + 1, metrics := ZERO, base := |s.calls|,
       semaphore := if s.limit.Some? then Some(|s.free|) else s.semaphore,
       free := if s.limit.Some? then s.free + [s.limit.value] else s.free)
  }

  /** A call before `start` or after `stop` raises and is not counted. */
  function DoExecute(s: State): State
    requires s.semaphore.Some? ==> s.semaphore.value < |s.free|
  {
    if s.pool.None? then s
    else
      var counted := s.(metrics := s.metrics.(submitted := s.metrics.submitted + 1));
      if s.semaphore.None? then Enter(counted, None)
      else if s.free[s.semaphore.value] > 0 then Enter(counted, s.semaphore)
      else counted.(calls := s.calls + [Queued(s.semaphore.value)])
  }

  /** A new call goes straight to the pool. */
  function Enter(s: State, permit: Option<nat>): State
    requires s.pool.Some? && (permit.Some? ==> permit.value < |s.free| && s.free[permit.value] > 0)
  {
    s.(metrics := s.metrics.(running := s.metrics.running + 1),
       calls := s.calls + [InPool(permit, s.pool.value)],
       free := if permit.Some? then s.free[permit.value := s.free[permit.value] - 1] else s.free)
  }

  /** A waiting call gets its permit; with the pool gone it gives the permit back and raises. */
  function DoGrant(s: State, c: nat): State
    requires Enabled(s, Grant(c))
  {
    var sem := s.calls[c].semaphore;
    if s.pool.Some? then
      s.(metrics := s.metrics.(running := s.metrics.running + 1),
         calls := s.calls[c := InPool(Some(sem), s.pool.value)],
         free := s.free[sem := s.free[sem] - 1])
    else
      s.(metrics := s.metrics.(backendErrors := s.metrics.backendErrors + 1),
         calls := s.calls[c := Over(Broken)])
  }

  function Count(m: Metrics, how: Ending): Metrics {
    match how
    case Succeeded => m.(completed := m.completed + 1)
    case Errored => m.(failed := m.failed + 1)
    case Broken => m.(backendErrors := m.backendErrors + 1)
    case Cancelled => m
  }

  /** A running call is over: it is counted and its permit is released. */
  function Settle(s: State, c: nat, how: Ending): State
    requires c < |s.calls| && s.calls[c].InPool?
  {
    var permit := s.calls[c].permit;
    s.(metrics := Count(s.metrics.(running := s.metrics.running - 1), how),
       calls := s.calls[c := Over(how)],
       free := if permit.Some? && permit.value < |s.free| then s.free[permit.value := s.free[permit.value] + 1] else s.free)
  }

  function Apply(s: State, step: Step): State
    requires Enabled(s, step) && (s.semaphore.Some? ==> s.semaphore.value < |s.free|)
  {
    match step
    case Start => DoStart(s)
    case Stop => s.(pool := None, semaphore := None)
    case Execute => DoExecute(s)
    case Grant(c) => DoGrant(s, c)
    case Finish(c, how) => Settle(s, c, how)
    case Cancel(c) => if s.calls[c].InPool? then Settle(s, c, Cancelled) else s.(calls := s.calls[c := Over(Cancelled)])
  }

  /** A call is refused and leaves no trace exactly when there is no pool; one that is counted goes
      to the pool at once exactly when nothing limits it or a permit is free, and waits otherwise. */
  lemma WhoIsAdmitted(s: State)
    requires Typed(s)
    ensures var r := DoExecute(s);
            && (r == s <==> s.pool.None?)
            && (s.pool.Some? ==>
                  && |r.calls| == |s.calls| + 1 && r.calls[..|s.calls|] == s.calls && !r.calls[|s.calls|].Over?
                  && (r.calls[|s.calls|].InPool? <==> s.semaphore.None? || s.free[s.semaphore.value] > 0)
                  && (r.calls[|s.calls|].InPool? ==> r.calls[|s.calls|].pool == s.pool.value))
  {
    assert s.pool.Some? ==> DoExecute(s).metrics.submitted == s.metrics.submitted + 1;
  }

  /** A waiting call that gets its permit runs in the current pool exactly when there is one. After
      `stop` it is a backend error, not a failure and not a success, and its permit is free again. */
  lemma GrantAfterStopIsABackendError(s: State, c: nat)
    requires Enabled(s, Grant(c))
    ensures var r := DoGrant(s, c);
            && (r.calls[c].InPool? <==> s.pool.Some?)
            && (s.pool.Some? ==> r.calls[c].pool == s.pool.value)
            && (s.pool.None? ==>
                  && r.calls[c] == Over(Broken) && r.free == s.free && r.metrics.backendErrors == s.metrics.backendErrors + 1
                  && r.metrics.failed == s.metrics.failed && r.metrics.completed == s.metrics.completed
                  && r.metrics.running == s.metrics.running)
  {
  }

  // ----- Counting calls -----

  datatype Kind = IsQueued | IsInPool | IsOver(how: Ending)

  function KindOf(c: Call): Kind {
    match c
    case Queued(_) => IsQueued
    case InPool(_, _) => IsInPool
    case Over(how) => IsOver(how)
  }

  /** The calls of a kind, from number `base` on. */
  function Calls(calls: seq<Call>, base: nat, kind: Kind): nat {
    if |calls| <= base then 0
    else Calls(calls[..|calls| - 1], base, kind) + if KindOf(calls[|calls| - 1]) == kind then 1 else 0
  }

  function Is(c: Call, kind: Kind): int { if KindOf(c) == kind then 1 else 0 }

  lemma {:induction false} CallChanges(calls: seq<Call>, base: nat, kind: Kind, c: nat, call: Call)
    requires c < |calls|
    ensures Calls(calls[c := call], base, kind) == Calls(calls, base, kind) + if c < base then 0 else Is(call, kind) - Is(calls[c], kind)
    decreases |calls|
  {
    var last := |calls| - 1;
    if |calls| > base {
      if c < last {
        CallChanges(calls[..last], base, kind, c, call);
        assert calls[c := call][..last] == calls[..last][c := call];
      } else {
        assert calls[c := call][..last] == calls[..last];
      }
    }
  }

  lemma CallAdded(calls: seq<Call>, base: nat, kind: Kind, call: Call)
    requires base <= |calls|
    ensures Calls(calls + [call], base, kind) == Calls(calls, base, kind) + Is(call, kind)
  {
    assert (calls + [call])[..|calls|] == calls;
  }

  // ----- What the counters say -----

  /** The counters are the tally of the calls counted since they were reset. */
  ghost predicate Tallied(s: State) {
    && s.metrics.submitted == |s.calls| - s.base
    && s.metrics.running == Calls(s.calls, s.base, IsInPool)
    && s.metrics.completed == Calls(s.calls, s.base, IsOver(Succeeded))
    && s.metrics.failed == Calls(s.calls, s.base, IsOver(Errored))
    && s.metrics.backendErrors == Calls(s.calls, s.base, IsOver(Broken))
  }

  lemma {:induction false} EveryCallIsOneKind(calls: seq<Call>, base: nat)
    requires base <= |calls|
    ensures |calls| - base == Calls(calls, base, IsQueued) + Calls(calls, base, IsInPool) + Calls(calls, base, IsOver(Succeeded))
              + Calls(calls, base, IsOver(Errored)) + Calls(calls, base, IsOver(Broken)) + Calls(calls, base, IsOver(Cancelled))
    decreases |calls|
  {
    if |calls| > base {
      EveryCallIsOneKind(calls[..|calls| - 1], base);
      var last := calls[|calls| - 1];
      match last
      case Queued(_) =>
      case InPool(_, _) =>
      case Over(how) => match how { case Succeeded => case Errored => case Broken => case Cancelled => }
    }
  }

  /** The step settles or admits a call from before the last reset, so it moves counters that
      never counted that call. */
  predicate TouchesOlder(s: State, step: Step) {
    match step
    case Grant(c) => c < s.base
    case Finish(c, _) => c < s.base
    case Cancel(c) => c < s.base && c < |s.calls| && s.calls[c].InPool?
    case _ => false
  }

  lemma CallReplaced(s: State, c: nat, call: Call)
    requires c < |s.calls|
    ensures forall kind :: Calls(s.calls[c := call], s.base, kind) ==
              Calls(s.calls, s.base, kind) + if c < s.base then 0 else Is(call, kind) - Is(s.calls[c], kind)
  {
    forall kind ensures Calls(s.calls[c := call], s.base, kind) ==
              Calls(s.calls, s.base, kind) + if c < s.base then 0 else Is(call, kind) - Is(s.calls[c], kind)
    {
      CallChanges(s.calls, s.base, kind, c, call);
    }
  }

  lemma CallAppended(s: State, call: Call)
    requires s.base <= |s.calls|
    ensures forall kind :: Calls(s.calls + [call], s.base, kind) == Calls(s.calls, s.base, kind) + Is(call, kind)
  {
    forall kind ensures Calls(s.calls + [call], s.base, kind) == Calls(s.calls, s.base, kind) + Is(call, kind) {
      CallAdded(s.calls, s.base, kind, call);
    }
  }

  lemma ExecuteTallied(s: State)
    requires Typed(s) && Tallied(s)
    ensures Tallied(DoExecute(s))
  {
    if s.pool.Some? {
      CallAppended(s, InPool(None, s.pool.value));
      if s.semaphore.Some? {
        CallAppended(s, InPool(s.semaphore, s.pool.value));
        CallAppended(s, Queued(s.semaphore.value));
      }
    }
  }

  lemma GrantTallied(s: State, c: nat)
    requires Typed(s) && Tallied(s) && Enabled(s, Grant(c))
    ensures Tallied(DoGrant(s, c)) <==> s.base <= c
  {
    CallReplaced(s, c, if s.pool.Some? then InPool(Some(s.calls[c].semaphore), s.pool.value) else Over(Broken));
  }

  lemma SettleTallied(s: State, c: nat, how: Ending)
    requires Typed(s) && Tallied(s) && c < |s.calls| && s.calls[c].InPool?
    ensures Tallied(Settle(s, c, how)) <==> s.base <= c
  {
    CallReplaced(s, c, Over(how));
  }

  /** A step keeps the counters a true tally exactly when it touches no call from before the reset. */
  lemma TallyIsExact(s: State, step: Step)
    requires Typed(s) && Tallied(s) && Enabled(s, step)
    ensures Tallied(Apply(s, step)) <==> !TouchesOlder(s, step)
  {
    match step
    case Start =>
    case Stop =>
    case Execute => ExecuteTallied(s);
    case Grant(c) => GrantTallied(s, c);
    case Finish(c, how) => SettleTallied(s, c, how);
    case Cancel(c) =>
      if s.calls[c].InPool? { SettleTallied(s, c, Cancelled); } else { CallReplaced(s, c, Over(Cancelled)); }
  }

  // ----- Permits -----

  predicate HasPermit(c: Call, sem: nat) { c.InPool? && c.permit == Some(sem) }

  function Holders(calls: seq<Call>, sem: nat): nat {
    if calls == [] then 0 else Holders(calls[..|calls| - 1], sem) + if HasPermit(calls[|calls| - 1], sem) then 1 else 0
  }

  lemma {:induction false} HolderChanges(calls: seq<Call>, sem: nat, c: nat, call: Call)
    requires c < |calls|
    ensures Holders(calls[c := call], sem) ==
              Holders(calls, sem) + (if HasPermit(call, sem) then 1 else 0) - if HasPermit(calls[c], sem) then 1 else 0
    decreases |calls|
  {
    var last := |calls| - 1;
    if c < last {
      HolderChanges(calls[..last], sem, c, call);
      assert calls[c := call][..last] == calls[..last][c := call];
    } else {
      assert calls[c := call][..last] == calls[..last];
    }
  }

  lemma HolderAdded(calls: seq<Call>, sem: nat, call: Call)
    ensures Holders(calls + [call], sem) == Holders(calls, sem) + if HasPermit(call, sem) then 1 else 0
  {
    assert (calls + [call])[..|calls|] == calls;
  }

  lemma {:induction false} NoHolders(calls: seq<Call>, sem: nat)
    requires forall c :: 0 <= c < |calls| ==> !HasPermit(calls[c], sem)
    ensures Holders(calls, sem) == 0
    decreases |calls|
  {
    if calls != [] { NoHolders(calls[..|calls| - 1], sem); }
  }

  /** Every semaphore's permits are either free or held by a call in a pool. */
  ghost predicate PermitsKept(s: State) {
    if s.limit.None? then s.free == []
    else forall sem :: 0 <= sem < |s.free| ==> s.free[sem] + Holders(s.calls, sem) == s.limit.value
  }

  lemma ExecutePermits(s: State)
    requires Typed(s) && PermitsKept(s)
    ensures PermitsKept(DoExecute(s))
  {
    if s.pool.Some? {
      forall sem ensures forall call :: Holders(s.calls + [call], sem) == Holders(s.calls, sem) + if HasPermit(call, sem) then 1 else 0 {
        forall call { HolderAdded(s.calls, sem, call); }
      }
    }
  }

  lemma GrantPermits(s: State, c: nat)
    requires Typed(s) && PermitsKept(s) && Enabled(s, Grant(c))
    ensures PermitsKept(DoGrant(s, c))
  {
    var r := DoGrant(s, c);
    forall sem | 0 <= sem < |s.free| && s.limit.Some? ensures r.free[sem] + Holders(r.calls, sem) == s.limit.value {
      HolderChanges(s.calls, sem, c, r.calls[c]);
    }
  }

  lemma SettlePermits(s: State, c: nat, how: Ending)
    requires Typed(s) && PermitsKept(s) && c < |s.calls| && s.calls[c].InPool?
    ensures PermitsKept(Settle(s, c, how))
  {
    var r := Settle(s, c, how);
    forall sem | 0 <= sem < |s.free| && s.limit.Some? ensures r.free[sem] + Holders(r.calls, sem) == s.limit.value {
      HolderChanges(s.calls, sem, c, r.calls[c]);
    }
  }

  lemma StartPermits(s: State)
    requires Typed(s) && PermitsKept(s)
    ensures PermitsKept(DoStart(s))
  {
    if s.limit.Some? { NoHolders(s.calls, |s.free|); }
  }

  /** Permits are conserved by every step, restarts included. */
  lemma StepPermits(s: State, step: Step)
    requires Typed(s) && PermitsKept(s) && Enabled(s, step)
    ensures Typed(Apply(s, step)) && PermitsKept(Apply(s, step))
  {
    match step
    case Start => StartPermits(s);
    case Stop =>
    case Execute => ExecutePermits(s);
    case Grant(c) => GrantPermits(s, c);
    case Finish(c, how) => SettlePermits(s, c, how);
    case Cancel(c) =>
      if s.calls[c].InPool? { SettlePermits(s, c, Cancelled); }
      else { forall sem { HolderChanges(s.calls, sem, c, Over(Cancelled)); } }
  }

  // ----- One lifetime -----

  /** The calls counted since the last start use the semaphore made by it. */
  ghost predicate OneSemaphore(s: State) {
    && (s.limit.Some? && s.pool.Some? ==> s.semaphore == Some(|s.free| - 1) && |s.free| > 0)
    && forall c :: s.base <= c < |s.calls| && s.limit.Some? ==>
         && (s.calls[c].Queued? ==> s.calls[c].semaphore == |s.free| - 1)
         && (s.calls[c].InPool? ==> s.calls[c].permit == Some(|s.free| - 1))
  }

  lemma StepOneSemaphore(s: State, step: Step)
    requires Typed(s) && OneSemaphore(s) && Enabled(s, step)
    ensures OneSemaphore(Apply(s, step))
  {
  }

  lemma {:induction false} RunningHold(calls: seq<Call>, base: nat, sem: nat)
    requires forall c :: base <= c < |calls| && calls[c].InPool? ==> calls[c].permit == Some(sem)
    ensures Calls(calls, base, IsInPool) <= Holders(calls, sem)
    decreases |calls|
  {
    if |calls| > base { RunningHold(calls[..|calls| - 1], base, sem); }
  }

  ghost predicate Inv(s: State) { Typed(s) && PermitsKept(s) && OneSemaphore(s) && Tallied(s) }

  /** Outstanding calls from before the last start: none. */
  ghost predicate OlderOver(s: State) { forall c :: 0 <= c < s.base && c < |s.calls| ==> s.calls[c].Over? }

  /** The backend is not restarted while a call is outstanding. */
  ghost predicate CleanStart(s: State, step: Step) {
    step.Start? ==> forall c :: 0 <= c < |s.calls| ==> s.calls[c].Over?
  }

  ghost predicate IsRun(s: State, steps: seq<Step>)
    requires Typed(s) && PermitsKept(s)
    decreases |steps|
  {
    steps == [] || (Enabled(s, steps[0]) && (StepPermits(s, steps[0]); IsRun(Apply(s, steps[0]), steps[1..])))
  }

  ghost function Exec(s: State, steps: seq<Step>): (r: State)
    requires Typed(s) && PermitsKept(s) && IsRun(s, steps)
    ensures Typed(r) && PermitsKept(r)
    decreases |steps|
  {
    if steps == [] then s else (StepPermits(s, steps[0]); Exec(Apply(s, steps[0]), steps[1..]))
  }

  ghost predicate CleanRun(s: State, steps: seq<Step>)
    requires Typed(s) && PermitsKept(s) && IsRun(s, steps)
    decreases |steps|
  {
    steps == [] || (CleanStart(s, steps[0]) && (StepPermits(s, steps[0]); CleanRun(Apply(s, steps[0]), steps[1..])))
  }

  lemma StepInv(s: State, step: Step)
    requires Inv(s) && OlderOver(s) && Enabled(s, step) && CleanStart(s, step)
    ensures Inv(Apply(s, step)) && OlderOver(Apply(s, step))
  {
    StepPermits(s, step);
    StepOneSemaphore(s, step);
    TallyIsExact(s, step);
  }

  lemma {:induction false} RunInv(s: State, steps: seq<Step>)
    requires Inv(s) && OlderOver(s) && IsRun(s, steps) && CleanRun(s, steps)
    ensures Inv(Exec(s, steps)) && OlderOver(Exec(s, steps))
    decreases |steps|
  {
    if steps != [] {
      StepInv(s, steps[0]);
      RunInv(Apply(s, steps[0]), steps[1..]);
    }
  }

  /** In every run that does not restart over outstanding calls: every submitted call is waiting,
      running, completed, failed, a backend error or cancelled; and no more calls run than hold
      permits, nor than the limit. */
  lemma CountersAreConserved(limit: Option<nat>, steps: seq<Step>)
    requires IsRun(Created(limit), steps) && CleanRun(Created(limit), steps)
    ensures var s := Exec(Created(limit), steps);
            var m := s.metrics;
            && m.submitted == Calls(s.calls, s.base, IsQueued) + m.running + m.completed + m.failed + m.backendErrors
                              + Calls(s.calls, s.base, IsOver(Cancelled))
            && m.running == Calls(s.calls, s.base, IsInPool)
            && (limit.Some? && s.pools > 0 ==> |s.free| > 0 && m.running <= Holders(s.calls, |s.free| - 1) <= limit.value)
  {
    var s := Exec(Created(limit), steps);
    RunInv(Created(limit), steps);
    LimitIsFixed(Created(limit), steps);
    EveryCallIsOneKind(s.calls, s.base);
    if limit.Some? && s.pools > 0 { RunningHold(s.calls, s.base, |s.free| - 1); }
  }

  ghost predicate PoolsHaveSemaphores(s: State) { s.limit.Some? ==> |s.free| == s.pools }

  lemma {:induction false} LimitIsFixed(s: State, steps: seq<Step>)
    requires Typed(s) && PermitsKept(s) && IsRun(s, steps) && PoolsHaveSemaphores(s)
    ensures Exec(s, steps).limit == s.limit && PoolsHaveSemaphores(Exec(s, steps))
    decreases |steps|
  {
    if steps != [] {
      StepPermits(s, steps[0]);
      LimitIsFixed(Apply(s, steps[0]), steps[1..]);
    }
  }

  // ----- After stop -----

  /** None of the first `n` calls can be let into a pool: there is none, or none of them waits. */
  ghost predicate ShutOut(s: State, n: nat) {
    n <= |s.calls| && (s.pool.None? || forall c :: 0 <= c < n ==> !s.calls[c].Queued?)
  }

  lemma StepShutsOut(s: State, step: Step, n: nat)
    requires Typed(s) && ShutOut(s, n) && Enabled(s, step) && CleanStart(s, step)
    ensures ShutOut(Apply(s, step), n)
    ensures forall c :: 0 <= c < n && !s.calls[c].InPool? ==> !Apply(s, step).calls[c].InPool?
  {
  }

  lemma {:induction false} StaysOut(s: State, steps: seq<Step>, n: nat)
    requires Typed(s) && PermitsKept(s) && IsRun(s, steps) && CleanRun(s, steps) && ShutOut(s, n)
    ensures n <= |Exec(s, steps).calls| && forall c :: 0 <= c < n && !s.calls[c].InPool? ==> !Exec(s, steps).calls[c].InPool?
    decreases |steps|
  {
    if steps != [] {
      StepPermits(s, steps[0]);
      StepShutsOut(s, steps[0], n);
      StaysOut(Apply(s, steps[0]), steps[1..], n);
    }
  }

  /** A call that is not in a pool when the backend is stopped never gets into one, in any run that
      does not restart the backend while calls are outstanding. */
  lemma NothingEntersAfterStop(s: State, steps: seq<Step>)
    requires Typed(s) && PermitsKept(s) && IsRun(s, steps) && CleanRun(s, steps) && s.pool.None?
    ensures |s.calls| <= |Exec(s, steps).calls|
    ensures forall c :: 0 <= c < |s.calls| && !s.calls[c].InPool? ==> !Exec(s, steps).calls[c].InPool?
  {
    StaysOut(s, steps, |s.calls|);
  }

  lemma RunStartsWith(s: State, step: Step, rest: seq<Step>)
    requires Typed(s) && PermitsKept(s) && Enabled(s, step)
    requires Typed(Apply(s, step)) && PermitsKept(Apply(s, step)) && IsRun(Apply(s, step), rest)
    ensures IsRun(s, [step] + rest) && Exec(s, [step] + rest) == Exec(Apply(s, step), rest)
  {
    assert ([step] + rest)[1..] == rest;
  }

  const WAITING_FOR_ONE := State(Some(1), Some(0), 1, Some(0), [0], Metrics(2, 1, 0, 0, 0), [InPool(Some(0), 0), Queued(0)], 0)

  lemma OneRunsOneWaits() returns (steps: seq<Step>)
    ensures IsRun(Created(Some(1)), steps) && Exec(Created(Some(1)), steps) == WAITING_FOR_ONE
  {
    var s0 := Created(Some(1));
    var s1 := DoStart(s0);
    var s2 := DoExecute(s1);
    StepPermits(s0, Start);
    StepPermits(s1, Execute);
    StepPermits(s2, Execute);
    assert DoExecute(s2) == WAITING_FOR_ONE;
    RunStartsWith(s2, Execute, []);
    RunStartsWith(s1, Execute, [Execute]);
    RunStartsWith(s0, Start, [Execute] + [Execute]);
    steps := [Start] + ([Execute] + [Execute]);
  }

  /** Restarting over a waiting call breaks both promises: the call reaches the new pool, and it
      is running without ever having been counted as submitted. */
  lemma RestartRevivesAWaitingCall() returns (steps: seq<Step>, more: seq<Step>)
    ensures IsRun(Created(Some(1)), steps) && IsRun(Exec(Created(Some(1)), steps), more)
    ensures var s := Exec(Created(Some(1)), steps);
            var r := Exec(s, more);
            |r.calls| == |s.calls| == 2 && s.calls[1].Queued? && Step.Stop in more && r.calls[1].InPool? && r.metrics.running == 1 && r.metrics.submitted == 0
  {
    steps := OneRunsOneWaits();
    var s0 := WAITING_FOR_ONE;
    var s1 := s0.(pool := None, semaphore := None);
    var s2 := Settle(s1, 0, Succeeded);
    var s3 := DoStart(s2);
    StepPermits(s0, Stop);
    StepPermits(s1, Finish(0, Succeeded));
    StepPermits(s2, Start);
    StepPermits(s3, Grant(1));
    RunStartsWith(s3, Grant(1), []);
    RunStartsWith(s2, Start, [Grant(1)]);
    RunStartsWith(s1, Finish(0, Succeeded), [Start] + [Grant(1)]);
    RunStartsWith(s0, Stop, [Finish(0, Succeeded)] + ([Start] + [Grant(1)]));
    more := [Stop] + ([Finish(0, Succeeded)] + ([Start] + [Grant(1)]));
  }

  // ----- The class -----

  /** The backend's coroutines as code, one method for each stretch between suspensions. */
  class MultiprocessingBackend {
    const maxInFlight: Option<nat>
    var pool: Option<nat>
    var pools: nat
    var semaphore: Option<nat>
    var free: seq<nat>
    var metrics: Metrics
    var calls: seq<Call>
    ghost var base: nat

    ghost function View(): State
      reads this
    {
      State(maxInFlight, pool, pools, semaphore, free, metrics, calls, base)
    }

    constructor (maxInFlight: Option<nat>)
      ensures View() == Created(maxInFlight)
    {
      this.maxInFlight, pool, pools, semaphore := maxInFlight, None, 0, None;
      free, metrics, calls, base := [], ZERO, [], 0;
    }

    method StartBackend()
      modifies this
      ensures View() == DoStart(old(View()))
    {
      pool, pools := Some(pools), pools + 1;
      if maxInFlight.Some? {
        semaphore, free := Some(|free|), free + [maxInFlight.value];
      }
      metrics, base := ZERO, |calls|;
    }

    method StopBackend()
      modifies `pool, `semaphore
      ensures View() == old(View()).(pool := None, semaphore := None)
    {
      pool, semaphore := None, None;
    }

    /** `execute` up to its first suspension; `false` is the error of an unstarted backend. */
    method ExecuteCall() returns (counted: bool)
      requires Typed(View())
      modifies `free, `metrics, `calls
      ensures counted == pool.Some? && View() == DoExecute(old(View()))
    {
      if pool.None? { return false; }
      metrics := metrics.(submitted := metrics.submitted + 1);
      if semaphore.Some? && free[semaphore.value] == 0 {
        calls := calls + [Queued(semaphore.value)];
        return true;
      }
      if semaphore.Some? { free := free[semaphore.value := free[semaphore.value] - 1]; }
      metrics := metrics.(running := metrics.running + 1);
      calls := calls + [InPool(semaphore, pool.value)];
      return true;
    }

    /** `_run_and_record` is over: the `finally` blocks, then the outcome's counter. */
    method Leave(c: nat, how: Ending)
      requires Typed(View()) && c < |calls| && calls[c].InPool?
      modifies `free, `metrics, `calls
      ensures View() == Settle(old(View()), c, how)
    {
      metrics := metrics.(running := metrics.running - 1);
      if calls[c].permit.Some? {
        var sem := calls[c].permit.value;
        free := free[sem := free[sem] + 1];
      }
      match how {
        case Succeeded => metrics := metrics.(completed := metrics.completed + 1);
        case Errored => metrics := metrics.(failed := metrics.failed + 1);
        case Broken => metrics := metrics.(backendErrors := metrics.backendErrors + 1);
        case Cancelled =>
      }
      calls := calls[c := Over(how)];
    }

    /** A waiting call resumes with a permit and checks the pool again. */
    method ResumeCall(c: nat)
      requires Typed(View()) && Enabled(View(), Grant(c))
      modifies `free, `metrics, `calls
      ensures View() == DoGrant(old(View()), c)
    {
      var sem := calls[c].semaphore;
      free := free[sem := free[sem] - 1];
      metrics := metrics.(running := metrics.running + 1);
      if pool.Some? {
        calls := calls[c := InPool(Some(sem), pool.value)];
      } else {
        metrics := metrics.(running := metrics.running - 1);
        free := free[sem := free[sem] + 1];
        assert free == old(free);
        metrics := metrics.(backendErrors := metrics.backendErrors + 1);
        calls := calls[c := Over(Broken)];
      }
    }
  }
}
