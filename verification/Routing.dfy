/** Whether a reply finds its caller: a call in flight stays registered under its
    id until its reply is delivered, unless an earlier call of that id, already
    answered, leaves and takes the registration with it. */
module Routing {
  import opened Transport
  import opened Wire
  import opened Wrappers

  /** Every call in flight that has no mail is registered under its id. */
  ghost predicate AllRegistered(s: State) {
    forall c :: c in s.calls ==> IsRegistered(s, c)
  }

  ghost predicate IsRegistered(s: State, c: nat)
    requires c in s.calls
  {
    var call := s.calls[c];
    InFlight(call.phase) && call.mail.Nothing? ==> call.id in s.pending && s.pending[call.id] == c
  }

  /** The caller leaves without having taken a reply, and forgets its id. */
  predicate Forgets(step: Step) {
    || step.CancelQueued? || step.StopQueued? || (step.Attempt? && step.cancelled)
    || step.Poison? || step.CancelWaiting? || step.SeeDone?
  }

  /** The id that a leaving caller forgets is another caller's by now. */
  predicate Robs(s: State, step: Step) {
    && Forgets(step) && step.call in s.calls
    && var id := s.calls[step.call].id;
       id in s.pending && s.pending[id] != step.call
  }

  lemma ForgetsEarly(s: State, step: Step)
    requires Enabled(s, step) && Early(step)
    ensures if Forgets(step) then step.call in s.calls && Apply(s, step).pending == s.pending - {s.calls[step.call].id}
            else s.pending.Keys <= Apply(s, step).pending.Keys
                 && forall id :: id in s.pending ==> Apply(s, step).pending[id] == s.pending[id]
  {
    hide Stream, Frame, Framable;
    match step
    case Begin(_, _, _, _, _) =>
    case Register(_) =>
    case TakeSlot(_) =>
    case CancelQueued(_) =>
    case StopQueued(_) =>
    case Attempt(_, _) =>
  }

  lemma ForgetsLate(s: State, step: Step)
    requires Enabled(s, step) && !Early(step) && Actor(step).Some?
    ensures if Forgets(step) then step.call in s.calls && Apply(s, step).pending == s.pending - {s.calls[step.call].id}
            else Apply(s, step).pending == s.pending
  {
    hide Stream, Frame, Framable;
    match step
    case Emit(_, _) =>
    case Finish(_, _, _) =>
    case Release(_) =>
    case Poison(_) =>
    case TakeMail(_) =>
    case CancelWaiting(_) =>
    case SeeDone(_) =>
  }

  /** A caller's own step drops a registration only with its id, and leaves every
      other registration alone. */
  lemma PendingChanges(s: State, step: Step, id: string)
    requires Enabled(s, step) && Actor(step).Some? && id in s.pending
    ensures Forgets(step) ==> step.call in s.calls
    ensures if Forgets(step) && s.calls[step.call].id == id then id !in Apply(s, step).pending
            else id in Apply(s, step).pending && Apply(s, step).pending[id] == s.pending[id]
  {
    hide Apply, Enabled;
    if Early(step) {
      ForgetsEarly(s, step);
    } else {
      ForgetsLate(s, step);
    }
  }

  lemma OwnEarly(s: State, step: Step, c: nat)
    requires Enabled(s, step) && Early(step) && step.call == c && c in Apply(s, step).calls
    requires c in s.calls ==> IsRegistered(s, c)
    ensures IsRegistered(Apply(s, step), c)
  {
    hide Stream, Frame, Framable;
    match step
    case Begin(_, _, _, _, _) =>
    case Register(_) =>
    case TakeSlot(_) =>
    case CancelQueued(_) =>
    case StopQueued(_) =>
    case Attempt(_, _) =>
  }

  lemma OwnLate(s: State, step: Step, c: nat)
    requires Enabled(s, step) && Actor(step) == Some(c) && !Early(step) && c in s.calls && IsRegistered(s, c)
    ensures c in Apply(s, step).calls && IsRegistered(Apply(s, step), c)
  {
    hide Stream, Frame, Framable;
    match step
    case Emit(_, _) =>
    case Finish(_, _, _) =>
    case Release(_) =>
    case Poison(_) =>
    case TakeMail(_) =>
    case CancelWaiting(_) =>
    case SeeDone(_) =>
  }

  lemma LoopRegisters(s: State, step: Step, c: nat)
    requires Enabled(s, step) && Actor(step).None? && c in s.calls && IsRegistered(s, c)
    ensures c in Apply(s, step).calls && IsRegistered(Apply(s, step), c)
  {
    match step
    case Deliver(_) =>
    case ReadFails =>
    case ReadAbandons =>
    case Close =>
  }

  /** A step that robs nobody keeps a call registered. */
  lemma StaysRegistered(s: State, step: Step, c: nat)
    requires Enabled(s, step) && !Robs(s, step) && c in s.calls && IsRegistered(s, c)
    ensures c in Apply(s, step).calls && IsRegistered(Apply(s, step), c)
  {
    hide Apply, Enabled;
    if Actor(step).None? {
      LoopRegisters(s, step, c);
    } else if Actor(step) == Some(c) {
      CallProgress(s, step, c);
      if Early(step) {
        OwnEarly(s, step, c);
      } else {
        OwnLate(s, step, c);
      }
    } else {
      OthersUntouched(s, step, c);
      if Early(step) {
        OthersEarly(s, step, c);
      } else {
        OthersLate(s, step, c);
      }
      if s.calls[c].id in s.pending {
        PendingChanges(s, step, s.calls[c].id);
      }
    }
  }

  lemma NewIsRegistered(s: State, step: Step, c: nat)
    requires Enabled(s, step) && c in Apply(s, step).calls && c !in s.calls
    ensures IsRegistered(Apply(s, step), c)
  {
    hide Stream, Frame, Framable;
    if !Early(step) {
      NoNewCalls(s, step);
    } else {
      match step
      case Begin(_, _, _, _, _) =>
      case Register(_) =>
      case TakeSlot(_) =>
      case CancelQueued(_) =>
      case StopQueued(_) =>
      case Attempt(_, _) =>
    }
  }

  /** A step loses a registration if and only if it is the leaving of a caller
      whose id another caller uses by now; and that one is then on its own. */
  lemma RegistrationIsLostExactly(s: State, step: Step)
    requires Inv(s) && AllRegistered(s) && Enabled(s, step)
    ensures AllRegistered(Apply(s, step)) <==> !Robs(s, step)
  {
    var s' := Apply(s, step);
    if Robs(s, step) {
      Robbed(s, step);
    } else {
      hide Inv, Apply, Enabled, Robs, IsRegistered;
      forall c | c in s'.calls ensures IsRegistered(s', c) {
        if c in s.calls {
          StaysRegistered(s, step, c);
        } else {
          NewIsRegistered(s, step, c);
        }
      }
    }
  }

  lemma Robbed(s: State, step: Step)
    requires PendingOk(s) && Enabled(s, step) && Robs(s, step)
    ensures !AllRegistered(Apply(s, step))
  {
    hide Apply, Enabled;
    var id, s' := s.calls[step.call].id, Apply(s, step);
    var robbed := s.pending[id];
    assert Expects(s.calls[robbed], id);
    OthersKeepMail(s, step, robbed);
    PendingChanges(s, step, id);
    assert !IsRegistered(s', robbed);
  }

  lemma OthersKeepMail(s: State, step: Step, c: nat)
    requires Enabled(s, step) && c in s.calls && Forgets(step) && step.call != c
    ensures c in Apply(s, step).calls && Apply(s, step).calls[c] == s.calls[c]
  {
    hide Apply, Enabled;
    if Early(step) {
      OthersEarly(s, step, c);
    } else {
      OthersLate(s, step, c);
    }
  }

  /** Nobody is robbed on the way. */
  predicate NoneRobbed(s: State, steps: seq<Step>)
    decreases |steps|
  {
    steps == [] ||
    if Enabled(s, steps[0]) then !Robs(s, steps[0]) && NoneRobbed(Apply(s, steps[0]), steps[1..])
    else NoneRobbed(s, steps[1..])
  }

  lemma {:induction false} RunRegisters(s: State, steps: seq<Step>)
    requires Inv(s) && AllRegistered(s) && NoneRobbed(s, steps)
    ensures Inv(Run(s, steps)) && AllRegistered(Run(s, steps))
    decreases |steps|
  {
    hide Inv, AllRegistered, Apply, Enabled, Robs;
    if steps != [] {
      if Enabled(s, steps[0]) {
        StepKeeps(s, steps[0]);
        RegistrationIsLostExactly(s, steps[0]);
        RunRegisters(Apply(s, steps[0]), steps[1..]);
      } else {
        RunRegisters(s, steps[1..]);
      }
    }
  }

  /** A reply finds its caller: in a run that robs nobody, the server's reply to a
      call in flight is delivered to that very call. */
  lemma RepliesFindTheirCaller(steps: seq<Step>, c: nat)
    requires NoneRobbed(INITIAL, steps)
    requires var s := Run(INITIAL, steps);
             c in s.calls && InFlight(s.calls[c].phase) && s.calls[c].mail.Nothing? && !s.done
    ensures var s := Run(INITIAL, steps); var id := s.calls[c].id;
            Enabled(s, Deliver(id)) && c in Apply(s, Deliver(id)).calls && Apply(s, Deliver(id)).calls[c].mail == Reply(id)
  {
    InitHolds();
    hide Inv, Run, NoneRobbed;
    RunRegisters(INITIAL, steps);
    assert IsRegistered(Run(INITIAL, steps), c);
  }

  /** The same id for two calls. */
  ghost predicate IdsDiffer(s: State) {
    forall a, b :: a in s.calls && b in s.calls && s.calls[a].id == s.calls[b].id ==> a == b
  }

  lemma CallsStay(s: State, step: Step, c: nat)
    requires Enabled(s, step) && c in s.calls
    ensures c in Apply(s, step).calls && Apply(s, step).calls[c].id == s.calls[c].id
  {
    hide Apply, Enabled;
    CallProgress(s, step, c);
  }

  lemma {:induction false} IdsStay(s: State, steps: seq<Step>, c: nat)
    requires c in s.calls
    ensures c in Run(s, steps).calls && Run(s, steps).calls[c].id == s.calls[c].id
    decreases |steps|
  {
    hide Apply, Enabled;
    if steps != [] {
      if Enabled(s, steps[0]) {
        CallsStay(s, steps[0], c);
      }
      IdsStay(if Enabled(s, steps[0]) then Apply(s, steps[0]) else s, steps[1..], c);
    }
  }

  /** Callers of different ids never rob each other. */
  lemma {:induction false} DifferentIdsRobNobody(s: State, steps: seq<Step>)
    requires Inv(s) && IdsDiffer(Run(s, steps))
    ensures NoneRobbed(s, steps)
    decreases |steps|
  {
    hide Apply, Enabled;
    if steps != [] {
      if Enabled(s, steps[0]) {
        if Robs(s, steps[0]) {
          var id := s.calls[steps[0].call].id;
          assert s.calls[s.pending[id]].id == id;
          IdsStay(s, steps, steps[0].call);
          IdsStay(s, steps, s.pending[id]);
        }
        hide Inv;
        StepKeeps(s, steps[0]);
        DifferentIdsRobNobody(Apply(s, steps[0]), steps[1..]);
      } else {
        hide Inv;
        DifferentIdsRobNobody(s, steps[1..]);
      }
    }
  }

  // ------------------------------------------------------ a caller is robbed

  ghost predicate Reached(s: State) {
    exists steps :: Run(INITIAL, steps) == s
  }

  lemma {:induction false} RunSnoc(s: State, steps: seq<Step>, step: Step)
    ensures Run(s, steps + [step]) == var t := Run(s, steps); if Enabled(t, step) then Apply(t, step) else t
    decreases |steps|
  {
    hide Apply, Enabled;
    if steps == [] {
      assert [] + [step] == [step] && [step][1..] == [];
    } else {
      assert (steps + [step])[1..] == steps[1..] + [step];
      RunSnoc(if Enabled(s, steps[0]) then Apply(s, steps[0]) else s, steps[1..], step);
    }
  }

  lemma Onward(s: State, step: Step, t: State)
    requires Reached(s) && Enabled(s, step) && t == Apply(s, step)
    ensures Reached(t)
  {
    hide Apply, Enabled;
    var steps :| Run(INITIAL, steps) == s;
    RunSnoc(INITIAL, steps, step);
  }

  const FIRST := Call("a", true, [1], Phase.Waiting, 5, Nothing, true, NoCause)

  /** The first caller of the id waits for its reply. */
  lemma FirstWaits() returns (s: State)
    ensures Reached(s) && s == State(map[0 := FIRST], map["a" := 0], None, false, false, false, false,
                                     Frame([1]), [[1]], [0], [])
  {
    assert Run(INITIAL, []) == INITIAL && |Frame([1])| == 5;
    hide Frame, Stream;
    var call := FIRST.(phase := Queued, sent := 0, begun := false);
    var s1 := INITIAL.(calls := map[0 := call.(phase := Entering)]);
    Onward(INITIAL, Begin(0, "a", true, [1], false), s1);
    var s2 := INITIAL.(calls := map[0 := call], pending := map["a" := 0]);
    Onward(s1, Register(0), s2);
    var s3 := s2.(calls := map[0 := call.(phase := Phase.Holding)], slot := Some(0));
    Onward(s2, TakeSlot(0), s3);
    var s4 := s3.(calls := map[0 := call.(phase := Writing, begun := true)]);
    Onward(s3, Attempt(0, false), s4);
    hide Reached;
    s := FirstWrites(s4);
  }

  lemma FirstWrites(s4: State) returns (s: State)
    requires Reached(s4)
    requires s4 == State(map[0 := FIRST.(phase := Writing, sent := 0)], map["a" := 0], Some(0), false, false, false, false, [], [], [], [])
    ensures Reached(s) && s == State(map[0 := FIRST], map["a" := 0], None, false, false, false, false,
                                     Frame([1]), [[1]], [0], [])
  {
    assert |Frame([1])| == 5 && Framable([1]);
    hide Frame, Stream;
    assert [] + Frame([1])[0..0 + 5] == Frame([1]);
    var s5 := s4.(calls := map[0 := FIRST.(phase := Writing)], wire := Frame([1]), tail := Frame([1]));
    Onward(s4, Emit(0, 5), s5);
    var s6 := s5.(calls := map[0 := FIRST.(phase := Flushed)], complete := [[1]], writers := [0], tail := []);
    Onward(s5, Finish(0, true, false), s6);
    s := s6.(calls := map[0 := FIRST], slot := None);
    Onward(s6, Release(0), s);
  }

  /** The reply to the first caller arrives, a second caller takes the id, and
      the first one leaves at its deadline without reading its mail: the second
      one waits for a reply that nobody will deliver to it. */
  lemma ACallerIsRobbed() returns (s: State)
    ensures Reached(s) && !s.done && 1 in s.calls && s.calls[1].id == "a"
    ensures InFlight(s.calls[1].phase) && s.calls[1].mail.Nothing? && "a" !in s.pending
    ensures Enabled(s, Deliver("a")) && Apply(s, Deliver("a")).calls == s.calls
  {
    var s0 := FirstWaits();
    hide Frame, Stream;
    var second := FIRST.(phase := Queued, sent := 0, begun := false);
    var s1 := s0.(calls := map[0 := FIRST.(mail := Reply("a"))], pending := map[]);
    Onward(s0, Deliver("a"), s1);
    var s2 := s1.(calls := map[0 := FIRST.(mail := Reply("a")), 1 := second.(phase := Entering)]);
    Onward(s1, Begin(1, "a", true, [1], false), s2);
    var s3 := s2.(calls := map[0 := FIRST.(mail := Reply("a")), 1 := second], pending := map["a" := 1]);
    Onward(s2, Register(1), s3);
    s := s3.(calls := map[0 := FIRST.(mail := Reply("a"), phase := Done(Local(false, true, "a")), cause := Cancelled), 1 := second],
             pending := map[]);
    Onward(s3, CancelWaiting(0), s);
  }
}
