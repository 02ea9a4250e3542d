/** What the end of a connection means for its callers: nothing is sent after it,
    nobody new waits, and everyone who waits is let go. */
module Closing {
  import opened Transport
  import opened Wire
  import opened Wrappers

  lemma StepAfterStop(s: State, step: Step)
    requires Enabled(s, step) && s.stop && s.closed
    ensures Apply(s, step).stop && Apply(s, step).closed && Apply(s, step).wire == s.wire && (s.done ==> Apply(s, step).done)
  {
    hide Stream, Frame, Framable;
    if Early(step) {
      match step
      case Begin(_, _, _, _, _) =>
      case Register(_) =>
      case TakeSlot(_) =>
      case CancelQueued(_) =>
      case StopQueued(_) =>
      case Attempt(_, _) =>
    } else {
      match step
      case Emit(_, _) =>
      case Finish(_, _, _) =>
      case Release(_) =>
      case Poison(_) =>
      case TakeMail(_) =>
      case CancelWaiting(_) =>
      case SeeDone(_) =>
      case Deliver(_) =>
      case ReadFails =>
      case ReadAbandons =>
      case Close =>
    }
  }

  /** After the stop no call comes to wait: whoever is in flight was before. */
  lemma NobodyNew(s: State, step: Step, c: nat)
    requires Enabled(s, step) && s.stop && c in Apply(s, step).calls && InFlight(Apply(s, step).calls[c].phase)
    ensures c in s.calls && InFlight(s.calls[c].phase)
  {
    if c !in s.calls {
      NewIsOutside(s, step, c);
    } else if Actor(step) != Some(c) {
      OthersUntouched(s, step, c);
    } else if Early(step) {
      OwnStopped(s, step, c);
    } else {
      match step
      case Emit(_, _) =>
      case Finish(_, _, _) =>
      case Release(_) =>
      case Poison(_) =>
      case TakeMail(_) =>
      case CancelWaiting(_) =>
      case SeeDone(_) =>
    }
  }

  lemma OwnStopped(s: State, step: Step, c: nat)
    requires Enabled(s, step) && Early(step) && step.call == c && c in s.calls && s.stop
    requires InFlight(Apply(s, step).calls[c].phase)
    ensures InFlight(s.calls[c].phase)
  {
    hide Stream, Frame, Framable;
    match step
    case Begin(_, _, _, _, _) =>
    case Register(_) =>
    case TakeSlot(_) =>
    case CancelQueued(_) =>
    case StopQueued(_) =>
    case Attempt(_, _) =>
  }

  lemma NewIsOutside(s: State, step: Step, c: nat)
    requires Enabled(s, step) && c in Apply(s, step).calls && c !in s.calls
    ensures !InFlight(Apply(s, step).calls[c].phase)
  {
    hide Stream, Frame, Framable;
    if !Early(step) {
      NoNewCalls(s, step);
    } else {
      match step
      case Begin(_, _, _, _, _) =>
      case Register(_) =>
      case TakeSlot(_) =>
      case CancelQueued(_) =>
      case StopQueued(_) =>
      case Attempt(_, _) =>
    }
  }

  ghost predicate NoneNew(s: State, t: State) {
    forall c :: c in t.calls && InFlight(t.calls[c].phase) ==> c in s.calls && InFlight(s.calls[c].phase)
  }

  lemma {:induction false} StaysClosed(s: State, more: seq<Step>)
    requires s.stop && s.closed
    ensures var t := Run(s, more); t.stop && t.closed && t.wire == s.wire && (s.done ==> t.done) && NoneNew(s, t)
    decreases |more|
  {
    hide Apply, Enabled;
    if more != [] {
      var t := if Enabled(s, more[0]) then Apply(s, more[0]) else s;
      if Enabled(s, more[0]) {
        StepAfterStop(s, more[0]);
        forall c | c in t.calls && InFlight(t.calls[c].phase) ensures c in s.calls && InFlight(s.calls[c].phase) {
          NobodyNew(s, more[0], c);
        }
      }
      StaysClosed(t, more[1..]);
    }
  }

  /** Closing, poisoning and the end of the read loop close for good: whatever
      follows, not a byte more goes out, and no further call comes to wait. */
  lemma ClosedForGood(s: State, step: Step, more: seq<Step>)
    requires Enabled(s, step) && (step.Close? || step.Poison? || step.ReadFails?)
    ensures var closed := Apply(s, step); var t := Run(closed, more);
            closed.wire == s.wire && t.stop && t.closed && t.wire == s.wire && NoneNew(closed, t)
  {
    StaysClosed(Apply(s, step), more);
  }

  /** A caller that registers on a stopped connection is turned away, and may try
      again. */
  lemma LateCallersAreTurnedAway(s: State, c: nat)
    requires s.stop && Enabled(s, Register(c))
    ensures Apply(s, Register(c)).calls[c].phase == Done(Local(true, false, s.calls[c].id))
    ensures Apply(s, Register(c)).pending == s.pending
  {}

  /** Once the read loop is over, everyone who still waits can leave, at any later
      time. */
  lemma NobodyWaitsForever(s: State, step: Step, more: seq<Step>, c: nat)
    requires s.stop ==> s.closed
    requires Enabled(s, step) && (step.ReadFails? || step.ReadAbandons?)
    requires var t := Run(Apply(s, step), more); c in t.calls && t.calls[c].phase.Waiting?
    ensures var t := Run(Apply(s, step), more);
            t.done && Enabled(t, SeeDone(c)) && Apply(t, SeeDone(c)).calls[c].phase.Done?
  {
    StaysClosed(Apply(s, step), more);
  }

  ghost predicate EndsInOrder(s: State) {
    (s.done ==> s.stop) && (s.stop ==> s.closed)
  }

  lemma StepInOrder(s: State, step: Step)
    requires EndsInOrder(s) && Enabled(s, step)
    ensures EndsInOrder(Apply(s, step))
  {
    hide Stream, Frame, Framable;
    if Early(step) {
      match step
      case Begin(_, _, _, _, _) =>
      case Register(_) =>
      case TakeSlot(_) =>
      case CancelQueued(_) =>
      case StopQueued(_) =>
      case Attempt(_, _) =>
    } else {
      match step
      case Emit(_, _) =>
      case Finish(_, _, _) =>
      case Release(_) =>
      case Poison(_) =>
      case TakeMail(_) =>
      case CancelWaiting(_) =>
      case SeeDone(_) =>
      case Deliver(_) =>
      case ReadFails =>
      case ReadAbandons =>
      case Close =>
    }
  }

  lemma {:induction false} RunInOrder(s: State, steps: seq<Step>)
    requires EndsInOrder(s)
    ensures EndsInOrder(Run(s, steps))
    decreases |steps|
  {
    hide Apply, Enabled;
    if steps != [] {
      if Enabled(s, steps[0]) {
        StepInOrder(s, steps[0]);
      }
      RunInOrder(if Enabled(s, steps[0]) then Apply(s, steps[0]) else s, steps[1..]);
    }
  }

  /** The read loop is over only on a stopped connection, and a stopped connection
      has its socket closed. */
  lemma EndsComeInOrder(steps: seq<Step>)
    ensures EndsInOrder(Run(INITIAL, steps))
  {
    RunInOrder(INITIAL, steps);
  }
}
