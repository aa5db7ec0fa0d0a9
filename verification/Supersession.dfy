/** A connection that a newer registration has replaced can no longer act, except by finishing a
    registration of its own. */
module Supersession {
  import opened Entities
  import opened Protocol
  import opened Traces
  import opened Links

  /** Registered, not the connection installed for its worker id, and its handler still there,
      wherever it is suspended. */
  predicate OutOfDate(s: State, l: nat) {
    l < |s.links| && !s.links[l].phase.Exited? && Superseded(s, l)
  }

  predicate OutOfDateOrGone(s: State, l: nat) {
    OutOfDate(s, l) || (l < |s.links| && s.links[l].phase.Exited?)
  }

  predicate ActsOn(step: Step, l: nat) {
    (step.Receive? || step.FinishAck? || step.Disconnect?) && step.link == l
  }

  /** The step changes at most the entry of link `l`: its handler's place and its sends. */
  ghost predicate OnlyOwnLink(s: State, r: State, l: nat)
    requires l < |s.links|
  {
    l < |r.links| && r == s.(links := s.links[l := r.links[l]])
  }

  /** The step ends a REGISTER acknowledgement on `l` for an id that `l` is not installed for. */
  predicate Reinstalls(s: State, step: Step, l: nat) {
    && step == FinishAck(l) && l < |s.links| && s.links[l].phase.AckingRegister?
    && var w := s.links[l].phase.worker; !(w in s.connections && s.connections[w] == l)
  }

  /** Whatever happens on it, tasks, workers, connections, dispatches and the registry stay as they
      are, exactly unless it finishes acknowledging a REGISTER. */
  lemma OutOfDateIsInert(s: State, step: Step, l: nat)
    requires Typed(s) && OutOfDate(s, l) && Enabled(s, step) && ActsOn(step, l)
    ensures OnlyOwnLink(s, Apply(s, step), l) <==> !Reinstalls(s, step, l)
  {
    if Reinstalls(s, step, l) {
      var w := s.links[l].phase.worker;
      assert Apply(s, step).connections[w] == l;
    } else if step.FinishAck? {
      FinishAckIsInert(s, l);
    }
  }

  lemma FinishAckIsInert(s: State, l: nat)
    requires Typed(s) && OutOfDate(s, l) && Enabled(s, FinishAck(l)) && !Reinstalls(s, FinishAck(l), l)
    ensures OnlyOwnLink(s, DoFinishAck(s, l), l)
  {
    var r := DoFinishAck(s, l);
    if s.links[l].phase.AckingRegister? { assert r.connections == s.connections; }
    assert r.links == s.links[l := r.links[l]];
  }

  /** Reading a message, or losing the connection, ends its handler and fails its own sends. */
  lemma OutOfDateLeaves(s: State, step: Step, l: nat)
    requires Typed(s) && OutOfDate(s, l) && Enabled(s, step) && ActsOn(step, l) && !step.FinishAck?
    ensures Apply(s, step) == s.(links := s.links[l := s.links[l].(phase := Exited, pending := FailPending(s.links[l].pending))])
  {
  }

  // ----- Over runs -----

  /** No step on another link installs this one or changes where its handler is. */
  ghost predicate LinkLeftAlone(s: State, r: State, l: nat)
    requires l < |s.links|
  {
    && l < |r.links| && r.links[l].owner == s.links[l].owner && r.links[l].phase == s.links[l].phase
    && (forall w :: w in r.connections && r.connections[w] == l ==> w in s.connections && s.connections[w] == l)
  }

  lemma ExitLeavesAlone(s: State, k: nat, l: nat)
    requires Typed(s) && k < |s.links| && l < |s.links| && k != l
    ensures LinkLeftAlone(s, Exit(s, k), l)
  {
  }

  lemma ReceiveLeavesAlone(s: State, k: nat, m: Message, l: nat)
    requires Typed(s) && k < |s.links| && l < |s.links| && k != l
    ensures LinkLeftAlone(s, DoReceive(s, k, m), l)
  {
    if Superseded(s, k) { ExitLeavesAlone(s, k, l); }
  }

  lemma FinishAckLeavesAlone(s: State, k: nat, l: nat)
    requires Typed(s) && k < |s.links| && l < |s.links| && k != l
    ensures LinkLeftAlone(s, DoFinishAck(s, k), l)
  {
    if s.links[k].phase.AckingShutdown? { ExitLeavesAlone(s, k, l); }
  }

  lemma StartLeavesAlone(s: State, i: nat, l: nat)
    requires Typed(s) && i < |s.dispatches| && s.dispatches[i].Spawned? && l < |s.links|
    ensures LinkLeftAlone(s, DoStart(s, i), l)
  {
  }

  /** A dispatch that ends only pops its send. */
  lemma PopLeavesAlone(s: State, r: State, i: nat, l: nat)
    requires Typed(s) && i < |s.dispatches| && s.dispatches[i].Awaiting? && l < |s.links|
    requires r.links == PopPending(s, i).links && r.connections == s.connections
    ensures LinkLeftAlone(s, r, l)
  {
  }

  lemma ReplyLeavesAlone(s: State, i: nat, m: Message, l: nat)
    requires Typed(s) && i < |s.dispatches| && s.dispatches[i].Awaiting? && l < |s.links|
    ensures LinkLeftAlone(s, DoResumeReply(s, i, m), l)
  {
    PopLeavesAlone(s, DoResumeReply(s, i, m), i, l);
  }

  lemma ErrorLeavesAlone(s: State, i: nat, l: nat)
    requires Typed(s) && i < |s.dispatches| && s.dispatches[i].Awaiting? && l < |s.links|
    ensures LinkLeftAlone(s, DoResumeError(s, i), l)
  {
    PopLeavesAlone(s, DoResumeError(s, i), i, l);
  }

  lemma StepLeavesAlone(s: State, step: Step, l: nat)
    requires Typed(s) && Enabled(s, step) && l < |s.links| && !ActsOn(step, l)
    ensures LinkLeftAlone(s, Apply(s, step), l)
  {
    match step
    case StartDispatch(i) => StartLeavesAlone(s, i, l);
    case SendFails(i) => ErrorLeavesAlone(s, i, l);
    case SendRaises(i) => PopLeavesAlone(s, Strand(s, i), i, l);
    case ResumeWithReply(i) => ReplyLeavesAlone(s, i, ReplyOf(s, i), l);
    case ResumeWithError(i) => ErrorLeavesAlone(s, i, l);
    case Accept =>
    case Receive(k, m) => ReceiveLeavesAlone(s, k, m, l);
    case FinishAck(k) => FinishAckLeavesAlone(s, k, l);
    case Disconnect(k) => ExitLeavesAlone(s, k, l);
    case _ => QuietLinks(s, step);
  }

  lemma OwnStepStaysOut(s: State, step: Step, l: nat)
    requires Typed(s) && OutOfDate(s, l) && Enabled(s, step) && ActsOn(step, l)
    ensures OutOfDateOrGone(Apply(s, step), l) <==> !StaleAck(s, step)
  {
    if step.FinishAck? && !StaleAck(s, step) {
      FinishAckIsInert(s, l);
    } else if !step.FinishAck? {
      OutOfDateLeaves(s, step, l);
    }
  }

  /** A replaced connection stays replaced, or its handler ends, exactly unless that handler
      finishes acknowledging a REGISTER: then it is installed again. */
  lemma StepOutOfDate(s: State, step: Step, l: nat)
    requires Typed(s) && Enabled(s, step) && OutOfDateOrGone(s, l)
    ensures OutOfDateOrGone(Apply(s, step), l) <==> !(ActsOn(step, l) && StaleAck(s, step))
  {
    if ActsOn(step, l) { OwnStepStaysOut(s, step, l); } else { StepLeavesAlone(s, step, l); }
  }

  /** Once replaced, a connection stays replaced until its handler is gone, over any run in which
      no replaced connection finishes acknowledging a REGISTER. */
  lemma {:induction false} RunOutOfDate(s: State, steps: seq<Step>, env: Env, l: nat)
    requires Typed(s) && IsRun(s, steps, env) && env.freshAcks && OutOfDateOrGone(s, l)
    ensures OutOfDateOrGone(Exec(s, steps, env), l)
    decreases |steps|
  {
    if steps != [] {
      StepOutOfDate(s, steps[0], l);
      RunOutOfDate(Apply(s, steps[0]), steps[1..], env, l);
    }
  }

  /** Installing a connection puts the one it replaces out of date, wherever that is suspended. */
  lemma InstallSupersedes(s: State, l: nat, prior: nat, w: string)
    requires Typed(s) && l < |s.links| && prior < |s.links| && prior != l
    requires s.links[l].phase == AckingRegister(w)
    requires s.links[prior].owner == Some(w) && !s.links[prior].phase.Exited?
    ensures OutOfDate(DoFinishAck(s, l), prior)
  {
  }
}
