/** The control client's request path as a step machine: concurrent callers,
    the single writer slot, the read loop, cancellation, stop and write failure
    in any interleaving. */
module Transport {
  import opened Wire
  import opened Wrappers

  /** How a call ended. Local endings are classified by the client itself; a
      server reply carries the server's own classification. */
  datatype Ending =
    | Local(retryable: bool, resultUnknown: bool, requestID: string)
    | Replied(id: string)

  datatype Phase =
    | Entering          // context checked, not registered
    | Queued            // registered, waiting for the writer slot
    | Holding           // owns the slot, nothing attempted
    | Writing           // frame and flush under way
    | Flushed           // written, slot not yet released
    | Broken            // write failed, slot not yet released
    | Poisoning         // write failed, slot released, connection not yet poisoned
    | Waiting           // waiting for its reply
    | Done(ending: Ending)

  /** What the read loop left in the caller's channel. */
  datatype Mail = Nothing | Reply(id: string) | Hangup

  /** What a local ending came from. */
  datatype Cause = NoCause | Cancelled | Stopped | Duplicate | WriteFailed | Lost

  /** `begun` and `cause` say whether the write was attempted, and what ended the
      call; no step reads them. */
  datatype Call = Call(id: string, write: bool, payload: seq<Byte>, phase: Phase, sent: nat, mail: Mail,
                       begun: bool, cause: Cause)

  /** `complete` and `tail` split the wire into whole frames and the rest, and
      `writers` names the call behind each whole frame; no step reads them. */
  datatype State = State(
    calls: map<nat, Call>,
    pending: map<string, nat>,
    slot: Option<nat>,
    failed: bool,              // the buffered writer's sticky error
    closed: bool,              // the socket is closed
    stop: bool,
    done: bool,
    wire: seq<Byte>,
    complete: seq<seq<Byte>>,
    writers: seq<nat>,
    tail: seq<Byte>)

  const INITIAL: State := State(map[], map[], None, false, false, false, false, [], [], [], [])

  // ------------------------------------------------- the three classifiers

  function NeverSent(id: string): Ending {
    Local(true, false, id)
  }

  function ConnectionClosed(id: string): Ending {
    Local(true, false, id)
  }

  function WriteAttemptFailed(id: string, write: bool): Ending {
    Local(!write, write, id)
  }

  // --------------------------------------------------------------- the steps

  datatype Step =
    | Begin(call: nat, id: string, write: bool, payload: seq<Byte>, cancelled: bool)
    | Register(call: nat)
    | TakeSlot(call: nat)
    | CancelQueued(call: nat)
    | StopQueued(call: nat)
    | Attempt(call: nat, cancelled: bool)
    | Emit(call: nat, count: nat)
    | Finish(call: nat, ok: bool, sticky: bool)
    | Release(call: nat)
    | Poison(call: nat)
    | TakeMail(call: nat)
    | CancelWaiting(call: nat)
    | SeeDone(call: nat)
    | Deliver(id: string)
    | ReadFails
    | ReadAbandons
    | Close

  predicate In(s: State, c: nat, phase: Phase) {
    c in s.calls && s.calls[c].phase == phase
  }

  /** Nothing reaches the wire once the writer failed or the socket closed, and
      a payload that cannot be framed is refused before its first byte. A
      failure without a sticky error is such a refusal. */
  predicate Enabled(s: State, step: Step) {
    match step
    case Begin(c, id, _, payload, _) => c !in s.calls && 1 <= |id| <= 128 && payload != []
    case Register(c) => In(s, c, Entering)
    case TakeSlot(c) => In(s, c, Queued) && s.slot.None?
    case CancelQueued(c) => In(s, c, Queued)
    case StopQueued(c) => In(s, c, Queued) && s.stop
    case Attempt(c, _) => In(s, c, Holding)
    case Emit(c, count) =>
      && In(s, c, Writing) && !s.failed && !s.closed
      && Framable(s.calls[c].payload) && s.calls[c].sent + count <= |Frame(s.calls[c].payload)|
    case Finish(c, ok, sticky) =>
      && In(s, c, Writing)
      && (ok ==> !s.failed && Framable(s.calls[c].payload) && s.calls[c].sent == |Frame(s.calls[c].payload)|)
      && (!ok && !sticky ==> s.failed || (!Framable(s.calls[c].payload) && s.calls[c].sent == 0))
    case Release(c) => In(s, c, Flushed) || In(s, c, Broken)
    case Poison(c) => In(s, c, Poisoning)
    case TakeMail(c) => In(s, c, Waiting) && !s.calls[c].mail.Nothing?
    case CancelWaiting(c) => In(s, c, Waiting)
    case SeeDone(c) => In(s, c, Waiting) && s.done
    case Deliver(_) => !s.done
    case ReadFails => !s.done
    case ReadAbandons => !s.done && s.stop
    case Close => true
  }

  function Put(s: State, c: nat, call: Call): State {
    s.(calls := s.calls[c := call])
  }

  function Moved(s: State, c: nat, phase: Phase): State
    requires c in s.calls
  {
    s.(calls := s.calls[c := s.calls[c].(phase := phase)])
  }

  /** Ends locally. */
  function Ended(s: State, c: nat, ending: Ending, cause: Cause): State
    requires c in s.calls
  {
    s.(calls := s.calls[c := s.calls[c].(phase := Done(ending), cause := cause)])
  }

  /** Leaves with a local ending, dropping the registration. */
  function Leave(s: State, c: nat, ending: Ending, cause: Cause): State
    requires c in s.calls
  {
    s.(calls := s.calls[c := s.calls[c].(phase := Done(ending), cause := cause)], pending := s.pending - {s.calls[c].id})
  }

  function DoRegister(s: State, c: nat): State
    requires c in s.calls
  {
    var id := s.calls[c].id;
    if s.stop then Ended(s, c, ConnectionClosed(id), Stopped)
    else if id in s.pending then Ended(s, c, Local(false, false, id), Duplicate)
    else Moved(s.(pending := s.pending[id := c]), c, Queued)
  }

  function DoEmit(s: State, c: nat, count: nat): State
    requires c in s.calls && s.calls[c].sent + count <= |Frame(s.calls[c].payload)|
  {
    var call := s.calls[c];
    var bytes := Frame(call.payload)[call.sent..call.sent + count];
    s.(calls := s.calls[c := call.(sent := call.sent + count)], wire := s.wire + bytes, tail := s.tail + bytes)
  }

  function DoFinish(s: State, c: nat, ok: bool, sticky: bool): State
    requires c in s.calls
  {
    if ok then
      Moved(s, c, Flushed).(complete := s.complete + [s.calls[c].payload], writers := s.writers + [c], tail := [])
    else Moved(s, c, Broken).(failed := s.failed || sticky)
  }

  function DoTakeMail(s: State, c: nat): State
    requires c in s.calls
  {
    var call := s.calls[c];
    if call.mail.Reply? then Moved(s, c, Done(Replied(call.mail.id)))
    else Ended(s, c, Local(false, call.write, call.id), Lost)
  }

  /** Routes a reply to whoever is registered under its id. */
  function DoDeliver(s: State, id: string): State {
    var calls := if id in s.pending && s.pending[id] in s.calls then
                   var c := s.pending[id]; s.calls[c := s.calls[c].(mail := Reply(id))]
                 else s.calls;
    s.(calls := calls, pending := s.pending - {id})
  }

  /** The read loop ends: the socket closes and every registered caller is told. */
  function DoReadFails(s: State): State {
    s.(closed := true, stop := true, done := true, pending := map[],
       calls := map c | c in s.calls ::
                  if s.calls[c].id in s.pending && s.pending[s.calls[c].id] == c
                  then s.calls[c].(mail := Hangup) else s.calls[c])
  }

  function Apply(s: State, step: Step): State
    requires Enabled(s, step)
  {
    match step
    case Begin(c, id, write, payload, cancelled) =>
      Put(s, c, Call(id, write, payload, if cancelled then Done(NeverSent(id)) else Entering, 0, Nothing,
                     false, if cancelled then Cancelled else NoCause))
    case Register(c) => DoRegister(s, c)
    case TakeSlot(c) => Moved(s, c, Phase.Holding).(slot := Some(c))
    case CancelQueued(c) => Leave(s, c, NeverSent(s.calls[c].id), Cancelled)
    case StopQueued(c) => Leave(s, c, ConnectionClosed(s.calls[c].id), Stopped)
    case Attempt(c, cancelled) =>
      if cancelled then Leave(s, c, NeverSent(s.calls[c].id), Cancelled).(slot := None)
      else Put(s, c, s.calls[c].(phase := Writing, begun := true))
    case Emit(c, count) => DoEmit(s, c, count)
    case Finish(c, ok, sticky) => DoFinish(s, c, ok, sticky)
    case Release(c) => Moved(s, c, if s.calls[c].phase.Flushed? then Waiting else Poisoning).(slot := None)
    case Poison(c) => Leave(s, c, WriteAttemptFailed(s.calls[c].id, s.calls[c].write), WriteFailed).(stop := true, closed := true)
    case TakeMail(c) => DoTakeMail(s, c)
    case CancelWaiting(c) => Leave(s, c, Local(!s.calls[c].write, s.calls[c].write, s.calls[c].id), Cancelled)
    case SeeDone(c) => Leave(s, c, Local(false, s.calls[c].write, s.calls[c].id), Lost)
    case Deliver(id) => DoDeliver(s, id)
    case ReadFails => DoReadFails(s)
    case ReadAbandons => s.(done := true)
    case Close => s.(stop := true, closed := true)
  }

  function Run(s: State, steps: seq<Step>): State
    decreases |steps|
  {
    if steps == [] then s
    else Run(if Enabled(s, steps[0]) then Apply(s, steps[0]) else s, steps[1..])
  }

  // ------------------------------------------------------------ the invariant

  /** Registered, and not yet over. */
  predicate InFlight(phase: Phase) {
    !phase.Entering? && !phase.Done?
  }

  /** What an ending may say, in terms of what had happened to the call. */
  predicate EndingOk(call: Call, ending: Ending) {
    match ending
    case Replied(id) => id == call.id && call.begun && call.sent == |Frame(call.payload)|
    case Local(retryable, resultUnknown, requestID) =>
      && requestID == call.id
      && (resultUnknown <==> call.write && call.begun)
      && (!call.begun ==> call.sent == 0 && (retryable <==> !call.cause.Duplicate?))
      && (call.begun ==> (retryable <==> !call.write && !call.cause.Lost?))
  }

  /** A call that has not begun its write has put nothing on the wire, and one
      that ended after a byte went out says so. */
  ghost predicate CallOk(call: Call) {
    && call.sent <= |Frame(call.payload)| && (call.sent > 0 ==> Framable(call.payload))
    && (!call.phase.Done? ==> (call.begun <==> Attempted(call.phase)) && call.cause.NoCause?)
    && (!call.begun ==> call.sent == 0) && (call.phase.Entering? ==> call.mail.Nothing?)
    && (call.phase.Flushed? || call.phase.Waiting? ==> call.sent == |Frame(call.payload)|)
    && (call.phase.Done? ==> EndingOk(call, call.phase.ending))
    && (call.mail.Reply? ==> call.mail.id == call.id)
  }

  predicate OwnsSlot(phase: Phase) {
    phase.Holding? || phase.Writing? || phase.Flushed? || phase.Broken?
  }

  ghost predicate SlotOk(s: State) {
    && (forall c :: c in s.calls && OwnsSlot(s.calls[c].phase) ==> s.slot == Some(c))
    && (s.slot.Some? ==> s.slot.value in s.calls && OwnsSlot(s.calls[s.slot.value].phase))
  }

  /** The call whose write is under way. */
  predicate WriterIs(s: State, c: nat) {
    s.slot == Some(c) && In(s, c, Writing)
  }

  /** A registration names, by its own id, a call in flight without mail. */
  ghost predicate PendingOk(s: State) {
    forall id :: id in s.pending ==> s.pending[id] in s.calls && Expects(s.calls[s.pending[id]], id)
  }

  predicate Expects(call: Call, id: string) {
    call.id == id && InFlight(call.phase) && call.mail.Nothing?
  }

  predicate Attempted(phase: Phase) {
    !phase.Entering? && !phase.Queued? && !phase.Holding?
  }

  /** Each whole frame is one call's own, and no call has two. */
  ghost predicate WritersOk(s: State) {
    && |s.writers| == |s.complete|
    && (forall k :: 0 <= k < |s.writers| ==> Wrote(s, s.writers[k], s.complete[k]))
    && (forall i, k :: 0 <= i < k < |s.writers| ==> s.writers[i] != s.writers[k])
  }

  ghost predicate Wrote(s: State, c: nat, payload: seq<Byte>) {
    && c in s.calls && s.calls[c].payload == payload && Attempted(s.calls[c].phase) && !s.calls[c].phase.Writing?
    && s.calls[c].sent == |Frame(payload)|
  }

  /** The call whose unfinished bytes are on the wire. */
  ghost predicate TailOf(s: State, c: nat) {
    && c in s.calls && c !in s.writers && Attempted(s.calls[c].phase)
    && Framable(s.calls[c].payload) && s.tail == Emitted(s.calls[c])
  }

  /** Whole frames, then what the current writer emitted, or, once the writer
      failed, what the last one got out. */
  ghost predicate WireOk(s: State) {
    && (forall p :: p in s.complete ==> Framable(p))
    && s.wire == Stream(s.complete) + s.tail
    && (s.failed && s.tail != [] ==> exists c :: TailOf(s, c))
    && (!s.failed ==> forall c :: WriterIs(s, c) ==> s.tail == Emitted(s.calls[c]))
    && (!s.failed && (forall c :: !WriterIs(s, c)) ==> s.tail == [])
  }

  function Emitted(call: Call): seq<Byte> {
    if call.sent <= |Frame(call.payload)| then Frame(call.payload)[..call.sent] else []
  }

  ghost predicate CallsOk(s: State) {
    forall c :: c in s.calls ==> CallOk(s.calls[c])
  }

  ghost predicate Inv(s: State) {
    CallsOk(s) && SlotOk(s) && WireOk(s) && PendingOk(s) && WritersOk(s)
  }

  lemma CallsKeep(s: State, step: Step)
    requires CallsOk(s) && PendingOk(s) && Enabled(s, step)
    ensures CallsOk(Apply(s, step))
  {
    hide Stream, Frame, CallOk;
    var s' := Apply(s, step);
    forall c | c in s'.calls ensures CallOk(s'.calls[c]) {
      if c in s.calls {
        CallEvolves(s, step, c);
      } else {
        BeginOk(s, step, c);
      }
    }
  }

  lemma NoNewCalls(s: State, step: Step)
    requires Enabled(s, step) && !Early(step)
    ensures Apply(s, step).calls.Keys == s.calls.Keys
  {
    hide Stream, Frame, Framable;
    match step
    case Emit(_, _) =>
    case Finish(_, _, _) =>
    case Release(_) =>
    case Poison(_) =>
    case TakeMail(_) =>
    case CancelWaiting(_) =>
    case SeeDone(_) =>
    case Deliver(_) =>
    case ReadFails =>
    case ReadAbandons =>
    case Close =>
  }

  lemma BeginOk(s: State, step: Step, c: nat)
    requires Enabled(s, step) && c in Apply(s, step).calls && c !in s.calls
    ensures CallOk(Apply(s, step).calls[c])
  {
    hide Stream, Frame, Framable;
    if !Early(step) {
      NoNewCalls(s, step);
    } else {
      BeginEarly(s, step, c);
    }
  }

  lemma BeginEarly(s: State, step: Step, c: nat)
    requires Enabled(s, step) && Early(step) && c in Apply(s, step).calls && c !in s.calls
    ensures CallOk(Apply(s, step).calls[c])
  {
    hide Stream, Frame, Framable;
    match step
    case Begin(_, _, _, _, _) =>
    case Register(_) =>
    case TakeSlot(_) =>
    case CancelQueued(_) =>
    case StopQueued(_) =>
    case Attempt(_, _) =>
  }

  predicate Frees(step: Step, c: nat) {
    (step.Attempt? && step.call == c && step.cancelled) || (step.Release? && step.call == c)
  }

  /** The caller a step belongs to; the read loop and `Close` belong to none. */
  function Actor(step: Step): Option<nat> {
    if step.Deliver? || step.ReadFails? || step.ReadAbandons? || step.Close? then None else Some(step.call)
  }

  /** The steps before a write begins, and what follows it. */
  predicate Early(step: Step) {
    step.Begin? || step.Register? || step.TakeSlot? || step.CancelQueued? || step.StopQueued? || step.Attempt?
  }

  /** The steps by which a call ends after its write. */
  predicate Leaving(step: Step) {
    step.Poison? || step.TakeMail? || step.CancelWaiting? || step.SeeDone?
  }

  lemma OthersEarly(s: State, step: Step, c: nat)
    requires Enabled(s, step) && c in s.calls && Early(step) && step.call != c
    ensures c in Apply(s, step).calls && Apply(s, step).calls[c] == s.calls[c]
  {
    match step
    case Begin(_, _, _, _, _) =>
    case Register(_) =>
    case TakeSlot(_) =>
    case CancelQueued(_) =>
    case StopQueued(_) =>
    case Attempt(_, _) =>
  }

  lemma OthersLate(s: State, step: Step, c: nat)
    requires Enabled(s, step) && c in s.calls && Actor(step).Some? && !Early(step) && step.call != c
    ensures c in Apply(s, step).calls && Apply(s, step).calls[c] == s.calls[c]
  {
    hide Stream, Frame, Framable;
    match step
    case Emit(_, _) =>
    case Finish(_, _, _) =>
    case Release(_) =>
    case Poison(_) =>
    case TakeMail(_) =>
    case CancelWaiting(_) =>
    case SeeDone(_) =>
  }

  /** The read loop gives a caller nothing but a reply routed to it, or the end,
      and that only while it is registered. */
  predicate Delivered(s: State, c: nat, before: Mail, after: Mail) {
    after == before ||
    (exists id :: id in s.pending && s.pending[id] == c && (after.Hangup? || after == Reply(id)))
  }

  lemma LoopLeavesCalls(s: State, step: Step, c: nat)
    requires Enabled(s, step) && c in s.calls && Actor(step).None?
    ensures c in Apply(s, step).calls
    ensures Apply(s, step).calls[c] == s.calls[c].(mail := Apply(s, step).calls[c].mail)
    ensures Delivered(s, c, s.calls[c].mail, Apply(s, step).calls[c].mail)
  {
    match step
    case Deliver(_) =>
    case ReadFails =>
    case ReadAbandons =>
    case Close =>
  }

  /** A step leaves every other caller as it is, mail aside. */
  lemma OthersUntouched(s: State, step: Step, c: nat)
    requires Enabled(s, step) && c in s.calls && Actor(step) != Some(c)
    ensures c in Apply(s, step).calls
    ensures Apply(s, step).calls[c] == s.calls[c].(mail := Apply(s, step).calls[c].mail)
    ensures Delivered(s, c, s.calls[c].mail, Apply(s, step).calls[c].mail)
  {
    hide Apply, Enabled;
    if Actor(step).None? {
      LoopLeavesCalls(s, step, c);
    } else if Early(step) {
      OthersEarly(s, step, c);
    } else {
      OthersLate(s, step, c);
    }
  }

  lemma OwnEarlyKeeps(s: State, step: Step, c: nat)
    requires Enabled(s, step) && c in s.calls && Early(step) && step.call == c
    requires CallOk(s.calls[c])
    ensures c in Apply(s, step).calls && CallOk(Apply(s, step).calls[c])
  {
    hide Stream, Frame, Framable;
    match step
    case Begin(_, _, _, _, _) =>
    case Register(_) =>
    case TakeSlot(_) =>
    case CancelQueued(_) =>
    case StopQueued(_) =>
    case Attempt(_, _) =>
  }

  lemma OwnWriteKeeps(s: State, step: Step, c: nat)
    requires Enabled(s, step) && !Leaving(step) && c in s.calls && Actor(step) == Some(c) && !Early(step)
    requires CallOk(s.calls[c])
    ensures c in Apply(s, step).calls && CallOk(Apply(s, step).calls[c])
  {
    hide Stream, Frame, Framable;
    match step
    case Emit(_, _) =>
    case Finish(_, _, _) =>
    case Release(_) =>
  }

  lemma OwnLastKeeps(s: State, step: Step, c: nat)
    requires Enabled(s, step) && Leaving(step) && c in s.calls && Actor(step) == Some(c) && !Early(step)
    requires CallOk(s.calls[c])
    ensures c in Apply(s, step).calls && CallOk(Apply(s, step).calls[c])
  {
    hide Stream, Frame, Framable;
    match step
    case Poison(_) =>
    case TakeMail(_) =>
    case CancelWaiting(_) =>
    case SeeDone(_) =>
  }

  lemma OwnLateKeeps(s: State, step: Step, c: nat)
    requires Enabled(s, step) && c in s.calls && Actor(step) == Some(c) && !Early(step)
    requires CallOk(s.calls[c])
    ensures c in Apply(s, step).calls && CallOk(Apply(s, step).calls[c])
  {
    hide Apply, Enabled;
    if Leaving(step) {
      OwnLastKeeps(s, step, c);
    } else {
      OwnWriteKeeps(s, step, c);
    }
  }

  /** Every step keeps a call's classification in line with the bytes it sent. */
  lemma CallEvolves(s: State, step: Step, c: nat)
    requires Enabled(s, step) && PendingOk(s) && c in s.calls
    requires CallOk(s.calls[c])
    ensures c in Apply(s, step).calls && CallOk(Apply(s, step).calls[c])
  {
    hide Apply, Enabled, Stream, Frame, Framable;
    if Actor(step) != Some(c) {
      OthersUntouched(s, step, c);
    } else if Early(step) {
      OwnEarlyKeeps(s, step, c);
    } else {
      OwnLateKeeps(s, step, c);
    }
  }

  lemma OwnEarlyProgress(s: State, step: Step, c: nat)
    requires Enabled(s, step) && c in s.calls && Early(step) && step.call == c
    ensures Progress(s, Apply(s, step), c)
  {
    match step
    case Begin(_, _, _, _, _) =>
    case Register(_) =>
    case TakeSlot(_) =>
    case CancelQueued(_) =>
    case StopQueued(_) =>
    case Attempt(_, _) =>
  }

  lemma OwnWriteProgress(s: State, step: Step, c: nat)
    requires Enabled(s, step) && c in s.calls && Actor(step) == Some(c) && !Early(step) && !Leaving(step)
    ensures Progress(s, Apply(s, step), c)
  {
    hide Stream, Frame, Framable;
    match step
    case Emit(_, _) =>
    case Finish(_, _, _) =>
    case Release(_) =>
  }

  lemma OwnLastProgress(s: State, step: Step, c: nat)
    requires Enabled(s, step) && c in s.calls && Actor(step) == Some(c) && Leaving(step)
    ensures Progress(s, Apply(s, step), c)
  {
    OnlyEnds(s, step, c);
    hide Apply, Stream, Frame, Framable;
    assert Attempted(s.calls[c].phase) && !s.calls[c].phase.Writing?;
  }

  lemma OnlyEnds(s: State, step: Step, c: nat)
    requires Enabled(s, step) && c in s.calls && Actor(step) == Some(c) && Leaving(step)
    ensures c in Apply(s, step).calls && Apply(s, step).calls[c].phase.Done?
    ensures Apply(s, step).calls[c] ==
              s.calls[c].(phase := Apply(s, step).calls[c].phase, cause := Apply(s, step).calls[c].cause)
  {
    match step
    case Poison(_) =>
    case TakeMail(_) =>
    case CancelWaiting(_) =>
    case SeeDone(_) =>
  }

  /** A call keeps its id and payload, and what it sent once its write is over. */
  ghost predicate Progress(s: State, s': State, c: nat) {
    && c in s.calls && c in s'.calls
    && s'.calls[c].id == s.calls[c].id && s'.calls[c].payload == s.calls[c].payload
    && (Attempted(s.calls[c].phase) ==> Attempted(s'.calls[c].phase))
    && (Attempted(s.calls[c].phase) && !s.calls[c].phase.Writing? ==>
          !s'.calls[c].phase.Writing? && s'.calls[c].sent == s.calls[c].sent)
  }

  lemma CallProgress(s: State, step: Step, c: nat)
    requires Enabled(s, step) && c in s.calls
    ensures Progress(s, Apply(s, step), c)
  {
    hide Apply, Enabled;
    if Actor(step) != Some(c) {
      OthersUntouched(s, step, c);
    } else if Early(step) {
      hide Progress;
      OwnEarlyProgress(s, step, c);
    } else {
      hide Progress;
      if Leaving(step) {
        OwnLastProgress(s, step, c);
      } else {
        OwnWriteProgress(s, step, c);
      }
    }
  }

  lemma PendingEarly(s: State, step: Step, id: string)
    requires Enabled(s, step) && Early(step) && id in Apply(s, step).pending
    ensures (id in s.pending && Apply(s, step).pending[id] == s.pending[id])
         || (step.Register? && step.call in s.calls && s.calls[step.call].id == id && Apply(s, step).pending[id] == step.call)
  {
    hide Stream, Frame, Framable;
    match step
    case Begin(_, _, _, _, _) =>
    case Register(_) =>
    case TakeSlot(_) =>
    case CancelQueued(_) =>
    case StopQueued(_) =>
    case Attempt(_, _) =>
  }

  lemma PendingLate(s: State, step: Step, id: string)
    requires Enabled(s, step) && !Early(step) && id in Apply(s, step).pending
    ensures id in s.pending && Apply(s, step).pending[id] == s.pending[id]
  {
    hide Stream, Frame, Framable;
    match step
    case Emit(_, _) =>
    case Finish(_, _, _) =>
    case Release(_) =>
    case Poison(_) =>
    case TakeMail(_) =>
    case CancelWaiting(_) =>
    case SeeDone(_) =>
    case Deliver(_) =>
    case ReadFails =>
    case ReadAbandons =>
    case Close =>
  }

  /** A registration is new only by `Register`, under the caller's own id. */
  lemma PendingEvolves(s: State, step: Step, id: string)
    requires Enabled(s, step) && id in Apply(s, step).pending
    ensures (id in s.pending && Apply(s, step).pending[id] == s.pending[id])
         || (step.Register? && step.call in s.calls && s.calls[step.call].id == id && Apply(s, step).pending[id] == step.call)
  {
    hide Apply, Enabled;
    if Early(step) {
      PendingEarly(s, step, id);
    } else {
      PendingLate(s, step, id);
    }
  }

  lemma OwnPendingEarly(s: State, step: Step, c: nat)
    requires Enabled(s, step) && Early(step) && step.call == c && c in s.calls && Expects(s.calls[c], s.calls[c].id)
    requires s.calls[c].id in Apply(s, step).pending
    ensures c in Apply(s, step).calls && Expects(Apply(s, step).calls[c], s.calls[c].id)
  {
    hide Stream, Frame, Framable;
    match step
    case Begin(_, _, _, _, _) =>
    case Register(_) =>
    case TakeSlot(_) =>
    case CancelQueued(_) =>
    case StopQueued(_) =>
    case Attempt(_, _) =>
  }

  lemma OwnPendingLate(s: State, step: Step, c: nat)
    requires Enabled(s, step) && Actor(step) == Some(c) && !Early(step) && c in s.calls && Expects(s.calls[c], s.calls[c].id)
    requires s.calls[c].id in Apply(s, step).pending
    ensures c in Apply(s, step).calls && Expects(Apply(s, step).calls[c], s.calls[c].id)
  {
    hide Stream, Frame, Framable;
    match step
    case Emit(_, _) =>
    case Finish(_, _, _) =>
    case Release(_) =>
    case Poison(_) =>
    case TakeMail(_) =>
    case CancelWaiting(_) =>
    case SeeDone(_) =>
  }

  lemma DeliveryPending(s: State, step: Step, c: nat)
    requires Enabled(s, step) && step.Deliver? && c in s.calls && Expects(s.calls[c], s.calls[c].id)
    requires s.calls[c].id in s.pending && s.pending[s.calls[c].id] == c && PendingOk(s)
    requires s.calls[c].id in Apply(s, step).pending
    ensures c in Apply(s, step).calls && Expects(Apply(s, step).calls[c], s.calls[c].id)
  {}

  lemma LoopPending(s: State, step: Step, c: nat)
    requires Enabled(s, step) && Actor(step).None? && c in s.calls && Expects(s.calls[c], s.calls[c].id)
    requires s.calls[c].id in s.pending && s.pending[s.calls[c].id] == c && PendingOk(s)
    requires s.calls[c].id in Apply(s, step).pending
    ensures c in Apply(s, step).calls && Expects(Apply(s, step).calls[c], s.calls[c].id)
  {
    if step.Deliver? {
      DeliveryPending(s, step, c);
    } else {
      match step
      case ReadFails =>
      case ReadAbandons =>
      case Close =>
    }
  }

  /** Whoever stays registered still waits for its reply. */
  lemma PendingStays(s: State, step: Step, id: string)
    requires PendingOk(s) && Enabled(s, step) && id in s.pending && id in Apply(s, step).pending
    ensures s.pending[id] in Apply(s, step).calls && Expects(Apply(s, step).calls[s.pending[id]], id)
  {
    hide Apply, Enabled;
    var c := s.pending[id];
    if Actor(step).None? {
      LoopPending(s, step, c);
    } else if Actor(step) != Some(c) {
      if Early(step) {
        OthersEarly(s, step, c);
      } else {
        OthersLate(s, step, c);
      }
    } else if Early(step) {
      OwnPendingEarly(s, step, c);
    } else {
      OwnPendingLate(s, step, c);
    }
  }

  lemma PendingKeeps(s: State, step: Step)
    requires CallsOk(s) && PendingOk(s) && Enabled(s, step)
    ensures PendingOk(Apply(s, step))
  {
    hide CallOk;
    var s' := Apply(s, step);
    forall id | id in s'.pending ensures s'.pending[id] in s'.calls && Expects(s'.calls[s'.pending[id]], id) {
      PendingEvolves(s, step, id);
      if id in s.pending && s'.pending[id] == s.pending[id] {
        hide Apply, Enabled;
        PendingStays(s, step, id);
      } else {
        Registered(s, step.call);
      }
    }
  }

  /** A new registration is of a call that nothing was delivered to. */
  lemma Registered(s: State, c: nat)
    requires Enabled(s, Register(c)) && CallOk(s.calls[c])
    ensures var id, s' := s.calls[c].id, Apply(s, Register(c));
            id in s'.pending && !(id in s.pending && s.pending[id] == s'.pending[id]) ==> Expects(s'.calls[c], id)
  {}

  lemma WritersEvolve(s: State, step: Step)
    requires Enabled(s, step)
    ensures if step.Finish? && step.ok
            then Apply(s, step).writers == s.writers + [step.call]
                 && Apply(s, step).complete == s.complete + [s.calls[step.call].payload]
            else Apply(s, step).writers == s.writers && Apply(s, step).complete == s.complete
  {
    hide Stream, Frame, Framable;
    match step
    case Begin(_, _, _, _, _) =>
    case Register(_) =>
    case TakeSlot(_) =>
    case CancelQueued(_) =>
    case StopQueued(_) =>
    case Attempt(_, _) =>
    case Emit(_, _) =>
    case Finish(_, _, _) =>
    case Release(_) =>
    case Poison(_) =>
    case TakeMail(_) =>
    case CancelWaiting(_) =>
    case SeeDone(_) =>
    case Deliver(_) =>
    case ReadFails =>
    case ReadAbandons =>
    case Close =>
  }

  lemma WritersKeep(s: State, step: Step)
    requires WritersOk(s) && Enabled(s, step)
    ensures WritersOk(Apply(s, step))
  {
    var s' := Apply(s, step);
    WritersEvolve(s, step);
    if step.Finish? && step.ok {
      assert Wrote(s', step.call, s.calls[step.call].payload);
      assert forall k :: 0 <= k < |s.writers| ==> s.writers[k] != step.call;
    }
    hide Apply, Enabled, Stream, Frame, Framable;
    forall k | 0 <= k < |s.writers| ensures Wrote(s', s.writers[k], s.complete[k]) {
      assert Wrote(s, s.writers[k], s.complete[k]);
      CallProgress(s, step, s.writers[k]);
    }
  }

  lemma OwnerEarly(s: State, step: Step, c: nat)
    requires Enabled(s, step) && c in s.calls && Early(step) && step.call == c
    ensures c in Apply(s, step).calls
    ensures OwnsSlot(Apply(s, step).calls[c].phase) <==>
              (OwnsSlot(s.calls[c].phase) && !Frees(step, c)) || step == TakeSlot(c)
  {
    match step
    case Begin(_, _, _, _, _) =>
    case Register(_) =>
    case TakeSlot(_) =>
    case CancelQueued(_) =>
    case StopQueued(_) =>
    case Attempt(_, _) =>
  }

  lemma OwnerWrites(s: State, step: Step, c: nat)
    requires Enabled(s, step) && !Leaving(step) && c in s.calls && Actor(step) == Some(c) && !Early(step)
    ensures c in Apply(s, step).calls
    ensures OwnsSlot(Apply(s, step).calls[c].phase) <==> OwnsSlot(s.calls[c].phase) && !Frees(step, c)
  {
    hide Stream, Frame, Framable;
    match step
    case Emit(_, _) =>
    case Finish(_, _, _) =>
    case Release(_) =>
  }

  lemma OwnerLeaves(s: State, step: Step, c: nat)
    requires Enabled(s, step) && Leaving(step) && c in s.calls && Actor(step) == Some(c) && !Early(step)
    ensures c in Apply(s, step).calls
    ensures OwnsSlot(Apply(s, step).calls[c].phase) <==> OwnsSlot(s.calls[c].phase) && !Frees(step, c)
  {
    hide Stream, Frame, Framable;
    match step
    case Poison(_) =>
    case TakeMail(_) =>
    case CancelWaiting(_) =>
    case SeeDone(_) =>
  }

  lemma OwnerLate(s: State, step: Step, c: nat)
    requires Enabled(s, step) && c in s.calls && Actor(step) == Some(c) && !Early(step)
    ensures c in Apply(s, step).calls
    ensures OwnsSlot(Apply(s, step).calls[c].phase) <==> OwnsSlot(s.calls[c].phase) && !Frees(step, c)
  {
    hide Apply, Enabled;
    if Leaving(step) {
      OwnerLeaves(s, step, c);
    } else {
      OwnerWrites(s, step, c);
    }
  }

  /** Only taking and freeing the slot change who owns it. */
  lemma OwnerEvolves(s: State, step: Step, c: nat)
    requires Enabled(s, step) && c in s.calls
    ensures c in Apply(s, step).calls
    ensures OwnsSlot(Apply(s, step).calls[c].phase) <==>
              (OwnsSlot(s.calls[c].phase) && !Frees(step, c)) || step == TakeSlot(c)
  {
    hide Apply, Enabled;
    if Actor(step) != Some(c) {
      OthersUntouched(s, step, c);
    } else if Early(step) {
      OwnerEarly(s, step, c);
    } else {
      OwnerLate(s, step, c);
    }
  }

  lemma WriterEarly(s: State, step: Step, c: nat)
    requires Enabled(s, step) && Quiet(step) && c in s.calls && Early(step) && step.call == c
    ensures c in Apply(s, step).calls
    ensures In(Apply(s, step), c, Writing) <==> In(s, c, Writing)
    ensures Emitted(Apply(s, step).calls[c]) == Emitted(s.calls[c])
  {
    hide Stream, Frame, Framable;
    match step
    case Begin(_, _, _, _, _) =>
    case Register(_) =>
    case TakeSlot(_) =>
    case CancelQueued(_) =>
    case StopQueued(_) =>
  }

  lemma WriterLate(s: State, step: Step, c: nat)
    requires Enabled(s, step) && Quiet(step) && c in s.calls && !Early(step) && Actor(step) == Some(c)
    ensures c in Apply(s, step).calls
    ensures In(Apply(s, step), c, Writing) <==> In(s, c, Writing)
    ensures Emitted(Apply(s, step).calls[c]) == Emitted(s.calls[c])
  {
    hide Stream, Frame, Framable;
    match step
    case Release(_) =>
    case Poison(_) =>
    case TakeMail(_) =>
    case CancelWaiting(_) =>
    case SeeDone(_) =>
  }

  /** Only starting, continuing and finishing a write change who writes what. */
  lemma WriterEvolves(s: State, step: Step, c: nat)
    requires Enabled(s, step) && Quiet(step) && c in s.calls
    ensures c in Apply(s, step).calls
    ensures In(Apply(s, step), c, Writing) <==> In(s, c, Writing)
    ensures Emitted(Apply(s, step).calls[c]) == Emitted(s.calls[c])
  {
    hide Apply, Enabled, Stream, Frame, Framable;
    if Actor(step) != Some(c) {
      OthersUntouched(s, step, c);
    } else if Early(step) {
      WriterEarly(s, step, c);
    } else {
      WriterLate(s, step, c);
    }
  }

  lemma SlotEarly(s: State, step: Step)
    requires Enabled(s, step) && Early(step)
    ensures Apply(s, step).slot ==
              if step.TakeSlot? then Some(step.call)
              else if (step.Attempt? || step.Release?) && Frees(step, step.call) then None else s.slot
    ensures step.TakeSlot? ==> s.slot.None?
    ensures step.TakeSlot? || step.Attempt? || step.Release? ==> step.call in s.calls
    ensures forall c :: Frees(step, c) ==> c in s.calls && OwnsSlot(s.calls[c].phase)
    ensures forall c :: c in Apply(s, step).calls && c !in s.calls ==> !OwnsSlot(Apply(s, step).calls[c].phase)
    ensures Quiet(step) ==> Apply(s, step).wire == s.wire && Apply(s, step).complete == s.complete
    ensures Quiet(step) ==> Apply(s, step).tail == s.tail && Apply(s, step).failed == s.failed
  {
    hide Stream, Frame, Framable;
    match step
    case Begin(_, _, _, _, _) =>
    case Register(_) =>
    case TakeSlot(_) =>
    case CancelQueued(_) =>
    case StopQueued(_) =>
    case Attempt(_, _) =>
  }

  lemma SlotLate(s: State, step: Step)
    requires Enabled(s, step) && !Early(step)
    ensures Apply(s, step).slot == if step.Release? then None else s.slot
    ensures step.Release? ==> step.call in s.calls
    ensures forall c :: Frees(step, c) ==> c in s.calls && OwnsSlot(s.calls[c].phase)
    ensures forall c :: c in Apply(s, step).calls && c !in s.calls ==> !OwnsSlot(Apply(s, step).calls[c].phase)
    ensures Quiet(step) ==> Apply(s, step).wire == s.wire && Apply(s, step).complete == s.complete
    ensures Quiet(step) ==> Apply(s, step).tail == s.tail && Apply(s, step).failed == s.failed
  {
    hide Stream, Frame, Framable;
    match step
    case Emit(_, _) =>
    case Finish(_, _, _) =>
    case Release(_) =>
    case Poison(_) =>
    case TakeMail(_) =>
    case CancelWaiting(_) =>
    case SeeDone(_) =>
    case Deliver(_) =>
    case ReadFails =>
    case ReadAbandons =>
    case Close =>
  }

  lemma SlotEvolves(s: State, step: Step)
    requires Enabled(s, step)
    ensures Apply(s, step).slot ==
              if step.TakeSlot? then Some(step.call)
              else if (step.Attempt? || step.Release?) && Frees(step, step.call) then None else s.slot
    ensures step.TakeSlot? ==> s.slot.None?
    ensures step.TakeSlot? || step.Attempt? || step.Release? ==> step.call in s.calls
    ensures forall c :: Frees(step, c) ==> c in s.calls && OwnsSlot(s.calls[c].phase)
    ensures forall c :: c in Apply(s, step).calls && c !in s.calls ==> !OwnsSlot(Apply(s, step).calls[c].phase)
    ensures Quiet(step) ==> Apply(s, step).wire == s.wire && Apply(s, step).complete == s.complete
    ensures Quiet(step) ==> Apply(s, step).tail == s.tail && Apply(s, step).failed == s.failed
  {
    hide Apply, Enabled;
    if Early(step) {
      SlotEarly(s, step);
    } else {
      SlotLate(s, step);
    }
  }

  lemma SlotKeeps(s: State, step: Step)
    requires SlotOk(s) && Enabled(s, step)
    ensures SlotOk(Apply(s, step))
  {
    hide Apply, Enabled;
    SlotEvolves(s, step);
    forall c | c in s.calls
      ensures c in Apply(s, step).calls
      ensures OwnsSlot(Apply(s, step).calls[c].phase) <==>
                (OwnsSlot(s.calls[c].phase) && !Frees(step, c)) || step == TakeSlot(c)
    {
      OwnerEvolves(s, step, c);
    }
  }

  /** Steps that neither touch the wire nor move a writer. */
  predicate Quiet(step: Step) {
    !step.Attempt? && !step.Emit? && !step.Finish?
  }

  lemma QuietWire(s: State, step: Step)
    requires WireOk(s) && SlotOk(s) && Enabled(s, step) && Quiet(step)
    ensures WireOk(Apply(s, step))
  {
    hide Stream, Frame, Framable, Apply, Enabled, Emitted;
    var s' := Apply(s, step);
    SlotEvolves(s, step);
    SlotKeeps(s, step);
    forall c ensures WriterIs(s', c) <==> WriterIs(s, c) {
      if c in s.calls {
        OwnerEvolves(s, step, c);
        WriterEvolves(s, step, c);
      }
    }
    forall c | WriterIs(s, c) ensures Emitted(s'.calls[c]) == Emitted(s.calls[c]) {
      WriterEvolves(s, step, c);
    }
    WritersEvolve(s, step);
    if c :| TailOf(s, c) {
      CallProgress(s, step, c);
      WriterEvolves(s, step, c);
      assert TailOf(s', c);
    }
  }

  lemma AttemptWire(s: State, c: nat, cancelled: bool)
    requires CallsOk(s) && WireOk(s) && SlotOk(s) && Enabled(s, Attempt(c, cancelled))
    ensures WireOk(Apply(s, Attempt(c, cancelled)))
  {
    hide Stream, Frame, Framable;
    var s' := Apply(s, Attempt(c, cancelled));
    assert forall x :: !WriterIs(s, x);
    assert CallOk(s.calls[c]);
    forall x ensures WriterIs(s', x) <==> x == c && !cancelled {}
    if x :| TailOf(s, x) {
      assert TailOf(s', x);
    }
  }

  lemma EmitWire(s: State, c: nat, count: nat)
    requires WireOk(s) && SlotOk(s) && Enabled(s, Emit(c, count))
    ensures WireOk(Apply(s, Emit(c, count)))
  {
    hide Stream, Framable, Frame;
    var s' := DoEmit(s, c, count);
    var call := s.calls[c];
    var frame := Frame(call.payload);
    assert WriterIs(s, c) && s.tail == frame[..call.sent];
    assert s'.tail == frame[..call.sent + count] == Emitted(s'.calls[c]);
    assert s'.wire == Stream(s.complete) + s'.tail;
    assert WriterIs(s', c);
    forall x | WriterIs(s', x) ensures x == c {}
  }

  lemma FinishWire(s: State, c: nat, ok: bool, sticky: bool)
    requires c in s.calls && CallOk(s.calls[c]) && WireOk(s) && SlotOk(s) && WritersOk(s)
    requires Enabled(s, Finish(c, ok, sticky))
    ensures WireOk(Apply(s, Finish(c, ok, sticky)))
  {
    hide Frame;
    var s' := Apply(s, Finish(c, ok, sticky));
    var call := s.calls[c];
    assert WriterIs(s, c);
    forall x ensures !WriterIs(s', x) {}
    if ok {
      StreamSnoc(s.complete, call.payload);
      assert s.tail == Frame(call.payload);
      assert Stream(s.complete) + s.tail == Stream(s.complete + [call.payload]) + [];
    } else if !s.failed {
      assert s.tail == Emitted(s'.calls[c]);
      forall k | 0 <= k < |s.writers| ensures s.writers[k] != c {
        assert Wrote(s, s.writers[k], s.complete[k]);
      }
      assert s.tail != [] ==> TailOf(s', c);
    } else if x :| TailOf(s, x) {
      assert TailOf(s', x);
    }
  }

  lemma StepKeeps(s: State, step: Step)
    requires Inv(s) && Enabled(s, step)
    ensures Inv(Apply(s, step))
  {
    hide CallOk, SlotOk, WireOk, PendingOk, WritersOk, Apply;
    CallsKeep(s, step);
    SlotKeeps(s, step);
    PendingKeeps(s, step);
    WritersKeep(s, step);
    match step
    case Attempt(c, cancelled) => AttemptWire(s, c, cancelled);
    case Emit(c, count) => EmitWire(s, c, count);
    case Finish(c, ok, sticky) => FinishWire(s, c, ok, sticky);
    case _ => QuietWire(s, step);
  }

  lemma InitHolds()
    ensures Inv(INITIAL)
  {}

  lemma {:induction false} RunKeeps(s: State, steps: seq<Step>)
    requires Inv(s)
    ensures Inv(Run(s, steps))
    decreases |steps|
  {
    hide Inv, Apply;
    if steps != [] {
      if Enabled(s, steps[0]) {
        StepKeeps(s, steps[0]);
      }
      RunKeeps(if Enabled(s, steps[0]) then Apply(s, steps[0]) else s, steps[1..]);
    }
  }

  // ----------------------------------------------------------------- theorems

  /** Classification is exact over every schedule. A call ends with a reply for
      its own id only after its whole frame went out. A local ending says
      result-unknown if and only if it is that of a write whose attempt began. A
      call that never began put nothing on the wire and may be retried, unless its
      id was in flight already; one that began may be retried only if it reads and
      the connection was not lost under it. */
  lemma ClassificationIsExact(steps: seq<Step>, c: nat)
    requires c in Run(INITIAL, steps).calls
    ensures var call := Run(INITIAL, steps).calls[c];
            call.phase.Done? ==>
              match call.phase.ending
              case Replied(id) => id == call.id && call.begun && call.sent == |Frame(call.payload)|
              case Local(retryable, resultUnknown, requestID) =>
                && requestID == call.id
                && (resultUnknown <==> call.write && call.begun)
                && (!call.begun ==> call.sent == 0 && (retryable <==> !call.cause.Duplicate?))
                && (call.begun ==> (retryable <==> !call.write && !call.cause.Lost?))
  {
    hide Stream, Frame;
    InitHolds();
    RunKeeps(INITIAL, steps);
  }

  /** In particular a write that ended locally without `resultUnknown`, as every
      retryable one, put nothing on the wire; a write that put a byte on the wire
      ended with a reply for its id, or locally as result-unknown, not retryable,
      with its id. */
  lemma ClassificationIsSound(steps: seq<Step>, c: nat)
    requires c in Run(INITIAL, steps).calls
    ensures var call := Run(INITIAL, steps).calls[c];
            call.phase.Done? && call.write ==>
              match call.phase.ending
              case Replied(id) => id == call.id
              case Local(retryable, resultUnknown, requestID) =>
                && requestID == call.id
                && (retryable || !resultUnknown ==> call.sent == 0)
                && (call.sent > 0 ==> resultUnknown && !retryable)
  {
    hide Run, Stream, Frame;
    ClassificationIsExact(steps, c);
  }

  /** Concurrent callers leave whole frames followed by at most one cut frame,
      and a reader recovers exactly the complete payloads in order, plus the
      last one if its bytes all got out. Each recovered payload is that of one
      call which attempted its write, and no call's payload comes twice. */
  lemma WireIsWholeFrames(steps: seq<Step>)
    ensures var s := Run(INITIAL, steps);
            && WritersOk(s) && (forall p :: p in s.complete ==> Framable(p))
            && exists last :: Framable(last) && s.tail <= Frame(last)
                 && (s.tail != [] ==> exists c :: TailOf(s, c) && s.calls[c].payload == last)
                 && s.wire == Stream(s.complete) + s.tail
                 && ReadAll(s.wire) == s.complete + if s.tail == Frame(last) then [last] else []
  {
    InitHolds();
    RunKeeps(INITIAL, steps);
    hide Run, Stream, Frame, ReadAll, CallsOk, SlotOk, PendingOk, WritersOk, TailOf;
    WireReads(Run(INITIAL, steps));
  }

  lemma WireReads(s: State)
    requires Inv(s)
    ensures exists last :: Framable(last) && s.tail <= Frame(last)
              && (s.tail != [] ==> exists c :: TailOf(s, c) && s.calls[c].payload == last)
              && s.wire == Stream(s.complete) + s.tail
              && ReadAll(s.wire) == s.complete + if s.tail == Frame(last) then [last] else []
  {
    var last := [0];
    if s.tail != [] {
      var c := UnfinishedCall(s);
      last := s.calls[c].payload;
      assert TailOf(s, c) && s.calls[c].payload == last;
    }
    assert Framable(last) && s.tail <= Frame(last);
    assert WireOk(s);
    hide Inv, Stream, Frame, ReadAll, TailOf;
    WireReadsBack(s.complete, s.tail, last);
  }

  lemma UnfinishedCall(s: State) returns (c: nat)
    requires Inv(s) && s.tail != []
    ensures TailOf(s, c)
  {
    if s.failed {
      c :| TailOf(s, c);
    } else {
      c :| WriterIs(s, c);
      assert CallOk(s.calls[c]);
      forall k | 0 <= k < |s.writers| ensures s.writers[k] != c {
        assert Wrote(s, s.writers[k], s.complete[k]);
      }
    }
  }

  /** One writer at a time: no two calls own the writer slot. */
  lemma OneWriter(steps: seq<Step>, a: nat, b: nat)
    requires var s := Run(INITIAL, steps);
             a in s.calls && b in s.calls && OwnsSlot(s.calls[a].phase) && OwnsSlot(s.calls[b].phase)
    ensures a == b
  {
    hide Stream, Frame;
    InitHolds();
    RunKeeps(INITIAL, steps);
  }
}
