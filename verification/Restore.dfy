/** The guarded restore: freeze, baseline, clear, summon, verify and clean up,
    with a failure or a cancellation possible at every call to the game and a
    freeze watchdog that may act at every wait. What the environment does is
    laid down in advance, request by request, and otherwise free. */
module Restore {
  import opened Snbt
  import opened Compare
  import opened Destination
  import opened Ticks
  import opened Wrappers

  /** A reply, an error raised by the call, or a cancellation delivered in it. */
  datatype Outcome = Replied | Raised | Cancelled

  /** Asleep until the timeout, then its own unfreeze is under way, then over. */
  datatype Watchdog = NoWatchdog | Sleeping | Firing | Finished

  /** What the environment does with the watchdog during one wait: whether its
      time comes, whether its request ends, with a reply, and with an effect. */
  datatype Lull = Lull(times: bool, ends: bool, replied: bool, released: bool)

  const QUIET: Lull := Lull(false, false, false, false)
  const LETS_GO: Lull := Lull(true, true, true, true)

  /** What becomes of one request: the waits around it, how it ends and whether
      it has its effect all the same, and what a query or a snapshot shows. */
  datatype Fate = Fate(earlier: Lull, reply: Outcome, happens: bool, later: Lull,
                       text: string, readable: bool, entities: seq<Record>, dimension: Option<string>)

  /** The environment: the fate of each request by its number, and the wait for
      a watchdog that is being stopped. */
  datatype World = World(fates: nat -> Fate, closing: Lull)

  datatype PriorRequest = Auto | CallerSaysFrozen | CallerSaysRunning

  datatype Params = Params(freeze: bool, prior: PriorRequest, timeoutPositive: bool, forceload: bool, hasBox: bool,
                           releaseForceload: bool, checkExisting: bool, replaceExisting: bool, keepGoing: bool,
                           verify: bool, strict: bool, dimension: Option<string>, expectDimension: string,
                           collisionRadius: real, round: Rounder, options: Options)

  datatype Verdict = Aborted | Succeeded | Failed | Unverified

  predicate StandsAt(text: string, part: string, i: int) {
    0 <= i <= |text| - |part| && text[i..i + |part|] == part
  }

  predicate Contains(text: string, part: string) {
    exists i :: 0 <= i <= |text| && StandsAt(text, part, i)
  }

  /** The tick state read out of the case-folded query output. */
  function TickState(text: string): Option<bool> {
    if Contains(text, "frozen") then Some(true)
    else if Contains(text, "running normally") || Contains(text, "not frozen") then Some(false)
    else None
  }

  lemma ContainsExactly(text: string, part: string)
    ensures Contains(text, part) <==> exists pre, post :: text == pre + part + post
  {
    if i :| 0 <= i <= |text| && StandsAt(text, part, i) {
      assert text == text[..i] + part + text[i + |part|..];
    }
    if pre, post :| text == pre + part + post {
      assert text[|pre|..|pre| + |part|] == part;
      assert StandsAt(text, part, |pre|);
    }
  }

  /** A text that names neither state is not read as either. */
  lemma UnreadableIsRefused(text: string)
    ensures TickState(text).None? <==> !Contains(text, "frozen") && !Contains(text, "running normally")
  {
    if Contains(text, "not frozen") {
      ContainsMore(text, "not frozen", 4);
      assert "not frozen"[4..] == "frozen";
    }
  }

  lemma ContainsMore(text: string, whole: string, skip: nat)
    requires Contains(text, whole) && skip <= |whole|
    ensures Contains(text, whole[skip..])
  {
    var i :| 0 <= i <= |text| && StandsAt(text, whole, i);
    assert text[i..i + |whole|][skip..] == text[i + skip..i + |whole|];
    assert StandsAt(text, whole[skip..], i + skip);
  }

  /** Running is read from one phrase only: a text that says "not frozen" reads
      as frozen, although the code lists it as a sign of running. */
  lemma RunningIsReadFrom(text: string)
    ensures TickState(text) == Some(false) <==> Contains(text, "running normally") && !Contains(text, "frozen")
    ensures Contains(text, "not frozen") ==> TickState(text) == Some(true)
  {
    if Contains(text, "not frozen") {
      ContainsMore(text, "not frozen", 4);
      assert "not frozen"[4..] == "frozen";
    }
  }

  // ------------------------------------------------ what a restore may send

  /** Learning the tick state, holding the world, loading the area. */
  function PreludeCalls(query: bool, hold: bool, load: bool): seq<Call> {
    (if query then [TickQuery] else []) + (if hold then [TickFreeze] else []) + (if load then [Forceload] else [])
  }

  /** The clear, with the game running for it when ticks are controlled. */
  function WindowCalls(ticks: bool, clears: seq<KillCommand>): seq<Call> {
    (if ticks then [TickUnfreeze] else []) + Kills(clears) + [SaveAll] + if ticks then [TickFreeze] else []
  }

  /** Letting go of the world and the area. */
  function EpilogueCalls(hold: bool, load: bool): seq<Call> {
    (if hold then [TickUnfreeze] else []) + if load then [ReleaseForceload] else []
  }

  lemma PreludeTicks(query: bool, hold: bool, load: bool)
    ensures TicksOf(PreludeCalls(query, hold, load)) == if hold then [true] else []
  {
    hide TicksOf;
    var q, h, l := if query then [TickQuery] else [], if hold then [TickFreeze] else [], if load then [Forceload] else [];
    TicksAppend(q + h, l);
    TicksAppend(q, h);
    TicklessHasNone(q);
    TicklessHasNone(l);
    TicklessHasNone([]);
    TicksSnoc([], TickFreeze);
    assert [] + [TickFreeze] == [TickFreeze];
  }

  lemma WindowTicks(clears: seq<KillCommand>)
    ensures TicksOf(WindowCalls(true, clears)) == [false, true]
  {
    hide TicksOf;
    var quiet := Kills(clears) + [SaveAll];
    assert WindowCalls(true, clears) == [TickUnfreeze] + quiet + [TickFreeze];
    TicksSnoc([TickUnfreeze] + quiet, TickFreeze);
    TicksAppend([TickUnfreeze], quiet);
    TicklessHasNone(quiet);
    TicklessHasNone([]);
    TicksSnoc([], TickUnfreeze);
    assert [] + [TickUnfreeze] == [TickUnfreeze];
  }

  /** From the baseline to the check, the clear window apart, the world stayed
      frozen during every call. */
  ghost predicate HeldStill(pre: seq<Call>, window: seq<Call>, post: seq<Call>, steady: seq<bool>) {
    && |steady| >= |pre| + 1 + |window| + |post|
    && forall i :: |pre| <= i < |pre| + 1 + |window| + |post| && !(|pre| + 1 <= i < |pre| + 1 + |window|) ==> steady[i]
  }

  lemma HeldStillHolds(initially: bool, pre: seq<Call>, window: seq<Call>, post: seq<Call>, tail: seq<Call>, steady: seq<bool>)
    requires SteadyLaw(initially, pre + [Snapshot(Baseline)] + window + post + tail, steady) && Tickless(post)
    requires LastOr(initially, TicksOf(pre)) && LastOr(initially, TicksOf(pre + [Snapshot(Baseline)] + window))
    ensures HeldStill(pre, window, post, steady)
  {
    var calls, first, before := pre + [Snapshot(Baseline)] + window + post + tail, [Snapshot(Baseline)], pre + [Snapshot(Baseline)] + window;
    assert calls == pre + first + (window + post + tail) && calls == before + post + tail;
    forall i | |pre| <= i < |pre| + 1 + |window| + |post| && !(|pre| + 1 <= i < |pre| + 1 + |window|) ensures steady[i] {
      if i == |pre| {
        SteadyStretch(initially, pre, first, window + post + tail, steady, i);
      } else {
        SteadyStretch(initially, before, post, tail, steady, i);
      }
    }
  }

  class Restore {
    const p: Params
    const expected: seq<Record>
    /** Indices of the records that can be summoned on their own, in order. */
    const items: seq<nat>
    const world: World

    /** The game's tick state. */
    var frozen: bool

    var watchdog: Watchdog
    var watchdogUnfroze: bool
    var prior: Option<bool>
    var frozenByBridge: bool
    var clearedWhileRunning: bool
    var refrozen: bool
    var restored: Option<bool>

    /** The last snapshot before the summons, and what a clear was aimed at. */
    var before: seq<Record>
    var baselineDimension: Option<string>
    var targets: seq<Leftover>
    var clears: seq<KillCommand>

    var attempted: nat
    var failed: set<nat>
    var verification: Option<bool>
    var checked: seq<Record>
    var checkedDimension: Option<string>
    /** The check snapshot was readable and was compared. */
    var compared: bool

    ghost const initiallyFrozen: bool
    /** Every request of the restore, in order. */
    var calls: seq<Call>
    /** Whether the world stayed frozen from a request's start to its end. */
    ghost var steady: seq<bool>
    /** A tick command of the bridge or the watchdog did not reply. */
    ghost var tickFault: bool
    /** The prior tick state was reported or read wrongly. */
    ghost var misread: bool
    /** How many tick commands of the bridge took effect, and how many of them
        before the watchdog's release did. */
    ghost var applied: nat
    ghost var releasedAfter: Option<nat>
    /** The calls of the clear window, once it is through. */
    ghost var window: seq<Call>

    constructor (p: Params, expected: seq<Record>, items: seq<nat>, frozen: bool, world: World)
      requires Ascending(items) && forall i :: 0 <= i < |items| ==> items[i] < |expected|
      ensures this.p == p && this.expected == expected && this.items == items && this.world == world
      ensures this.frozen == frozen == initiallyFrozen
      ensures Fresh()
    {
      this.p, this.expected, this.items, this.frozen, this.world := p, expected, items, frozen, world;
      watchdog, watchdogUnfroze, prior := NoWatchdog, false, None;
      frozenByBridge, clearedWhileRunning, refrozen, restored := false, false, false, None;
      before, baselineDimension, targets, clears := [], None, [], [];
      attempted, failed, verification, checked, checkedDimension, compared := 0, {}, None, [], None, false;
      initiallyFrozen, calls, steady := frozen, [], [];
      tickFault, misread, applied, releasedAfter, window := false, false, 0, None, [];
    }

    ghost predicate Fresh()
      reads this
    {
      && clears == [] && targets == []
      && ItemsFit()
      && frozen == initiallyFrozen
      && watchdog == NoWatchdog && !watchdogUnfroze && prior == None
      && !frozenByBridge && !clearedWhileRunning && !refrozen && restored == None
      && attempted == 0 && failed == {} && verification == None && calls == [] && steady == []
      && !tickFault && !misread && !compared && applied == 0 && releasedAfter == None && window == []
    }

    // ------------------------------------------------------- the game's side

    /** The laws of the world, whatever the restore does: the tick state is what
        the last command to take effect made it, and a world held still stays
        still. They speak of the tick commands only while those reply. */
    ghost predicate WorldOk()
      reads `frozen, `watchdog, `watchdogUnfroze, `tickFault, `calls, `steady, `applied, `releasedAfter
    {
      && |steady| == |calls|
      && (watchdogUnfroze <==> watchdog.Firing? || (watchdog.Finished? && watchdogUnfroze))
      && (!watchdog.NoWatchdog? ==> applied > 0)
      && (releasedAfter.Some? ==> 0 < releasedAfter.value <= applied && watchdogUnfroze && watchdog.Finished?)
      && (!tickFault ==> applied == |TicksOf(calls)|)
      && (!tickFault && watchdogUnfroze && watchdog.Finished? ==> releasedAfter.Some?)
      && (!tickFault ==> frozen == StateBy(TicksOf(calls)))
      && (!tickFault && !watchdogUnfroze ==> SteadyLaw(initiallyFrozen, calls, steady))
    }

    /** The tick state after these commands of the bridge and the watchdog's
        release, which came after some of them. */
    ghost function StateBy(ticks: seq<bool>): bool
      reads `releasedAfter
    {
      if releasedAfter.Some? && releasedAfter.value >= |ticks| then false else LastOr(initiallyFrozen, ticks)
    }

    /** The watchdog may fire, and a fired one may complete, while others wait. */
    method WaitWith(lull: Lull)
      requires WorldOk()
      modifies `frozen, `watchdog, `watchdogUnfroze, `restored, `tickFault, `releasedAfter
      ensures WorldOk()
      ensures old(watchdogUnfroze) ==> watchdogUnfroze
      ensures old(tickFault) ==> tickFault
      ensures watchdog.NoWatchdog? <==> old(watchdog).NoWatchdog?
      ensures !old(watchdog).Sleeping? ==> watchdogUnfroze == old(watchdogUnfroze) && !watchdog.Sleeping?
      ensures old(watchdog).Finished? ==> watchdog.Finished?
      ensures old(watchdog).NoWatchdog? || old(watchdog).Finished? || !watchdogUnfroze ==>
                && frozen == old(frozen) && restored == old(restored) && tickFault == old(tickFault)
                && watchdog == old(watchdog) && releasedAfter == old(releasedAfter)
      ensures old(watchdog).Sleeping? && lull == Lull(true, true, true, true) ==>
                watchdog.Finished? && watchdogUnfroze && tickFault == old(tickFault) && releasedAfter == Some(applied)
                && restored == Some(true)
      ensures !lull.times && !lull.ends ==>
                watchdog == old(watchdog) && watchdogUnfroze == old(watchdogUnfroze) && tickFault == old(tickFault)
                && releasedAfter == old(releasedAfter) && frozen == old(frozen)
    {
      if watchdog.Sleeping? && lull.times {
        watchdogUnfroze := true;
        watchdog := Firing;
      }
      if watchdog.Firing? && lull.ends {
        watchdog := Finished;
        if lull.replied || lull.released {
          frozen := false;
          releasedAfter := Some(applied);
        }
        if lull.replied {
          restored := Some(true);
        } else {
          tickFault := true;
        }
      }
    }

    /** The request itself. Its effect may have happened even when no reply came. */
    method PerformWith(call: Call, r: Outcome, happens: bool)
      modifies `frozen, `tickFault, `applied
      ensures if ChangesTick(call) && (r.Replied? || happens)
              then frozen == call.TickFreeze? && applied == old(applied) + 1
              else frozen == old(frozen) && applied == old(applied)
      ensures tickFault <==> old(tickFault) || (ChangesTick(call) && !r.Replied?)
    {
      if ChangesTick(call) {
        if r.Replied? || happens {
          frozen := call.TickFreeze?;
          applied := applied + 1;
        }
        if !r.Replied? {
          tickFault := true;
        }
      }
    }

    /** The request and its record. */
    method SendWith(call: Call, r: Outcome, happens: bool, ghost held: bool)
      requires WorldOk() && (!tickFault && !watchdogUnfroze ==> (LastOr(initiallyFrozen, TicksOf(calls)) ==> held))
      modifies `frozen, `tickFault, `applied, `calls, `steady
      ensures WorldOk() && calls == old(calls) + [call] && |steady| == |old(steady)| + 1
      ensures steady[..|old(steady)|] == old(steady) && (steady[|old(steady)|] ==> held)
      ensures old(applied) <= applied && (ChangesTick(call) && r.Replied? ==> applied == old(applied) + 1)
      ensures tickFault <==> old(tickFault) || (ChangesTick(call) && !r.Replied?)
    {
      PerformWith(call, r, happens);
      TicksSnoc(calls, call);
      ghost var still := held && frozen && !watchdogUnfroze;
      if !tickFault && !watchdogUnfroze {
        SteadySnoc(initiallyFrozen, calls, steady, call, still);
      }
      hide SteadyLaw, TicksOf;
      calls, steady := calls + [call], steady + [still];
    }

    /** A call during which the world did not stay still is marked so. */
    ghost method Unsettle()
      requires WorldOk() && steady != [] && !(frozen && !watchdogUnfroze)
      modifies `steady
      ensures WorldOk() && steady == old(steady)[|old(steady)| - 1 := false]
    {
      if !tickFault && !watchdogUnfroze {
        SteadyLast(initiallyFrozen, calls, steady);
      }
      hide TicksOf, SteadyLaw;
      steady := steady[|steady| - 1 := false];
    }

    /** The wait after a request, which decides whether the world stayed still. */
    method WaitAfter(lull: Lull)
      requires WorldOk() && steady != []
      modifies `frozen, `watchdog, `watchdogUnfroze, `restored, `tickFault, `releasedAfter, `steady
      ensures WorldOk() && |steady| == |old(steady)| && steady[..|steady| - 1] == old(steady)[..|steady| - 1]
      ensures steady[|steady| - 1] ==> old(steady)[|steady| - 1] && frozen && !watchdogUnfroze
      ensures old(watchdogUnfroze) ==> watchdogUnfroze
      ensures old(tickFault) ==> tickFault
      ensures watchdog.NoWatchdog? <==> old(watchdog).NoWatchdog?
      ensures !old(watchdog).Sleeping? ==> watchdogUnfroze == old(watchdogUnfroze) && !watchdog.Sleeping?
      ensures old(watchdog).Finished? ==> watchdog.Finished?
      ensures old(watchdog).NoWatchdog? || old(watchdog).Finished? || !watchdogUnfroze ==>
                && frozen == old(frozen) && restored == old(restored) && tickFault == old(tickFault)
                && watchdog == old(watchdog) && releasedAfter == old(releasedAfter)
      ensures old(watchdog).Sleeping? && lull == Lull(true, true, true, true) ==>
                watchdog.Finished? && watchdogUnfroze && tickFault == old(tickFault) && releasedAfter == Some(applied)
                && restored == Some(true)
      ensures !lull.times && !lull.ends ==>
                watchdog == old(watchdog) && watchdogUnfroze == old(watchdogUnfroze) && tickFault == old(tickFault)
                && releasedAfter == old(releasedAfter) && frozen == old(frozen)
    {
      hide WorldOk;
      WaitWith(lull);
      if !(frozen && !watchdogUnfroze) {
        Unsettle();
      }
    }

    /** One awaited call, with the watchdog free to act before and after. */
    method CallMod(call: Call) returns (r: Outcome)
      requires WorldOk()
      modifies `frozen, `watchdog, `watchdogUnfroze, `restored, `tickFault, `applied, `releasedAfter, `calls, `steady
      ensures WorldOk() && calls == old(calls) + [call] && r == world.fates(|old(calls)|).reply
      ensures |steady| == |old(steady)| + 1 && steady[..|old(steady)|] == old(steady)
      ensures steady[|old(steady)|] ==> old(frozen) && frozen && !watchdogUnfroze
      ensures old(watchdogUnfroze) ==> watchdogUnfroze
      ensures old(tickFault) ==> tickFault
      ensures old(applied) <= applied && (ChangesTick(call) && r.Replied? ==> applied == old(applied) + 1)
      ensures watchdog.NoWatchdog? <==> old(watchdog).NoWatchdog?
      ensures !old(watchdog).Sleeping? ==> watchdogUnfroze == old(watchdogUnfroze) && !watchdog.Sleeping?
      ensures old(watchdog).Finished? ==> watchdog.Finished? && releasedAfter == old(releasedAfter)
      ensures ChangesTick(call) && !r.Replied? ==> tickFault
      ensures old(watchdog).NoWatchdog? || old(watchdog).Finished? || !watchdogUnfroze ==>
                && restored == old(restored) && watchdog == old(watchdog)
                && (r.Replied? || !ChangesTick(call) ==> tickFault == old(tickFault))
      ensures QuietAt(|old(calls)|) ==>
                watchdog == old(watchdog) && watchdogUnfroze == old(watchdogUnfroze) && tickFault == old(tickFault)
      ensures LetsGoAt(|old(calls)|) && old(watchdog).Sleeping? ==>
                watchdog.Finished? && watchdogUnfroze && tickFault == old(tickFault) && releasedAfter == Some(applied)
    {
      var fate := world.fates(|calls|);
      ghost var held := frozen;
      assert !tickFault && !watchdogUnfroze ==> (LastOr(initiallyFrozen, TicksOf(calls)) ==> held);
      hide WorldOk, SteadyLaw, TicksOf, LastOr;
      WaitWith(fate.earlier);
      SendWith(call, fate.reply, fate.happens, held);
      WaitAfter(fate.later);
      r := fate.reply;
    }

    // ------------------------------------------------------ a late release

    /** The request is answered, and the watchdog stays as it is. */
    ghost predicate QuietAt(request: nat) {
      var fate := world.fates(request);
      fate.earlier == QUIET && fate.reply.Replied? && fate.later == QUIET
    }

    /** The request is answered, and then the watchdog lets the world go. */
    ghost predicate LetsGoAt(request: nat) {
      var fate := world.fates(request);
      fate.earlier == QUIET && fate.reply.Replied? && fate.later == LETS_GO
    }

    /** Every request is answered, and the watchdog's time comes right after the
        clear has let the world run, with the third request. */
    ghost predicate LateRelease() {
      && AllReply() && QuietAt(0) && QuietAt(1) && LetsGoAt(2)
      && p.freeze && p.prior.CallerSaysRunning? && p.timeoutPositive && !(p.forceload && p.hasBox)
      && p.checkExisting && p.replaceExisting && !initiallyFrozen
      && world.fates(1).readable && InWantedDimension(p.expectDimension, p.dimension, world.fates(1).dimension)
      && !NoneCollides(expected, world.fates(1).entities, p.collisionRadius)
    }

    // ----------------------------------------------------- a smooth restore

    /** Nothing goes wrong: every request is answered, every snapshot and the tick
        query can be read, and the watchdog's time never comes. */
    ghost predicate Smooth() {
      && (forall i: nat :: QuietAt(i) && world.fates(i).readable)
      && world.closing == QUIET
      && (p.prior.Auto? ==> TickState(world.fates(0).text).Some?)
    }

    /** So far nothing did. */
    ghost predicate Calm()
      reads `watchdog, `watchdogUnfroze, `tickFault
    {
      Smooth() && !watchdog.Firing? && !watchdogUnfroze && !tickFault
    }

    lemma WhenCalm(request: nat)
      ensures Calm() ==> world.fates(request).readable && QuietAt(request) && !watchdogUnfroze
    {}

    lemma AllReplyAt(request: nat)
      ensures AllReply() ==> world.fates(request).reply.Replied?
    {}

    ghost predicate AllReply() {
      forall i: nat :: world.fates(i).reply.Replied?
    }

    /** So far the world is held and nothing happened. */
    ghost predicate Armed(sent: nat)
      reads `watchdog, `watchdogUnfroze, `tickFault, `misread, `calls, `frozenByBridge
    {
      && LateRelease() && |calls| == sent && watchdog.Sleeping? && !watchdogUnfroze && !tickFault && !misread
      && frozenByBridge
    }

    /** The watchdog has let the world go after two tick commands, and no request
        fails any more. */
    ghost predicate LetGo()
      reads `watchdog, `watchdogUnfroze, `tickFault, `misread, `releasedAfter
    {
      AllReply() && watchdog.Finished? && watchdogUnfroze && !tickFault && !misread && releasedAfter == Some(2)
    }

    // ---------------------------------------------------------- bookkeeping

    /** Whether the bridge believes the world is held still. */
    predicate Held()
      reads `prior, `frozenByBridge
    {
      p.freeze && (prior == Some(true) || frozenByBridge)
    }

    /** The tick commands that the report says were sent. */
    ghost function DoneTicks(): seq<bool>
      reads `frozenByBridge, `clearedWhileRunning, `refrozen
    {
      (if frozenByBridge then [true] else [])
      + if !clearedWhileRunning then [] else if refrozen then [false, true] else [false]
    }

    ghost predicate UnderWay()
      reads `frozen, `watchdog, `watchdogUnfroze, `prior, `frozenByBridge, `clearedWhileRunning, `refrozen, `restored,
            `tickFault, `misread, `calls, `steady, `applied, `releasedAfter
    {
      && WorldOk()
      && (prior.Some? ==> p.freeze)
      && (frozenByBridge ==> prior == Some(false))
      && (clearedWhileRunning ==> Held()) && (refrozen ==> clearedWhileRunning)
      && (restored.Some? ==> watchdogUnfroze)
      && (prior.Some? && !misread ==> prior.value == initiallyFrozen)
      && (prior.None? ==> !misread)
      && (!watchdog.NoWatchdog? ==> frozenByBridge)
      && (!tickFault ==> TicksOf(calls) == DoneTicks())
      && (!p.freeze ==> !tickFault)
    }

    /** A call that does not touch the tick, made while the restore is under way. */
    method CallPlain(call: Call) returns (r: Outcome)
      requires UnderWay() && !ChangesTick(call)
      modifies `frozen, `watchdog, `watchdogUnfroze, `restored, `tickFault, `applied, `releasedAfter, `calls, `steady
      ensures r == world.fates(|old(calls)|).reply
      ensures UnderWay() && calls == old(calls) + [call]
      ensures !watchdogUnfroze ==> tickFault == old(tickFault)
      ensures old(watchdogUnfroze) ==> watchdogUnfroze
      ensures watchdog.NoWatchdog? <==> old(watchdog).NoWatchdog?
      ensures old(LetGo()) ==> LetGo() && r.Replied?
      ensures old(Armed(1)) ==> Armed(2) && r.Replied?
      ensures old(Calm()) ==> Calm() && r.Replied?
    {
      r := CallMod(call);
      TicksSnoc(old(calls), call);
    }

    /** A tick command, and the list of them grown by it. */
    method CallTick(call: Call) returns (r: Outcome)
      requires UnderWay() && ChangesTick(call) && p.freeze
      modifies `frozen, `watchdog, `watchdogUnfroze, `restored, `tickFault, `applied, `releasedAfter, `calls, `steady
      ensures r == world.fates(|old(calls)|).reply
      ensures WorldOk() && calls == old(calls) + [call] && (restored.Some? ==> watchdogUnfroze)
      ensures watchdog.NoWatchdog? <==> old(watchdog).NoWatchdog?
      ensures !r.Replied? ==> tickFault
      ensures !tickFault ==> TicksOf(calls) == DoneTicks() + [call.TickFreeze?]
      ensures r.Replied? && !watchdogUnfroze ==> tickFault == old(tickFault)
      ensures r.Replied? ==> applied > 0
      ensures old(watchdogUnfroze) ==> watchdogUnfroze
      ensures !old(watchdog).Sleeping? ==> watchdogUnfroze == old(watchdogUnfroze) && !watchdog.Sleeping?
      ensures old(LetGo()) ==> LetGo() && r.Replied?
      ensures LateRelease() && old(calls) == [] && old(watchdog).NoWatchdog? ==> r.Replied?
      ensures old(Armed(2)) && !call.TickFreeze? && !clearedWhileRunning ==> LetGo() && r.Replied?
      ensures old(Calm()) ==> Calm() && r.Replied?
    {
      r := CallMod(call);
      TicksSnoc(old(calls), call);
    }

    // ------------------------------------------------------------ preparation

    /** Learns the prior tick state; an unreadable answer refuses. */
    method ResolvePrior() returns (ok: bool)
      requires UnderWay() && p.freeze && prior.None? && !frozenByBridge
      modifies `frozen, `watchdog, `watchdogUnfroze, `restored, `tickFault, `applied, `releasedAfter, `calls, `steady, `prior, `misread
      ensures UnderWay() && (ok ==> prior.Some?) && watchdog.NoWatchdog?
      ensures tickFault == old(tickFault)
      ensures calls == old(calls) + if p.prior.Auto? then [TickQuery] else []
      ensures LateRelease() ==> ok && prior == Some(false) && !misread && calls == old(calls)
      ensures old(Calm()) ==> Calm()
      ensures match p.prior
              case CallerSaysFrozen => ok && prior == Some(true)
              case CallerSaysRunning => ok && prior == Some(false)
              case Auto =>
                var fate := world.fates(|old(calls)|);
                (ok <==> fate.reply.Replied? && TickState(fate.text).Some?) && (ok ==> prior == TickState(fate.text))
    {
      ok := true;
      match p.prior {
        case CallerSaysFrozen =>
          prior := Some(true);
        case CallerSaysRunning =>
          prior := Some(false);
        case Auto =>
          var answer := TickState(world.fates(|calls|).text);
          var r := CallPlain(TickQuery);
          if !r.Replied? || answer.None? {
            return false;
          }
          prior := answer;
      }
      misread := prior.value != initiallyFrozen;
    }

    /** Holds a running world and arms the watchdog. */
    method Hold() returns (ok: bool)
      requires UnderWay() && prior.Some? && watchdog.NoWatchdog? && !tickFault
      requires !frozenByBridge && !clearedWhileRunning
      modifies `frozen, `watchdog, `watchdogUnfroze, `restored, `tickFault, `applied, `releasedAfter, `calls, `steady, `frozenByBridge
      ensures UnderWay() && (ok ==> Held() && !tickFault)
      ensures calls == old(calls) + if prior.value then [] else [TickFreeze]
      ensures ok ==> (frozenByBridge <==> prior == Some(false))
      ensures LateRelease() && old(calls) == [] && prior == Some(false) && !misread ==> ok && Armed(1)
      ensures ok <==> prior.value || world.fates(|old(calls)|).reply.Replied?
      ensures old(Calm()) ==> Calm()
    {
      if prior.value {
        return true;
      }
      var r := CallTick(TickFreeze);
      if !r.Replied? {
        return false;
      }
      Arm();
      ok := true;
    }

    /** The freeze is the bridge's own now, and a watchdog is put over it. */
    method Arm()
      requires WorldOk() && watchdog.NoWatchdog? && applied > 0
      modifies `frozenByBridge, `watchdog
      ensures WorldOk() && frozenByBridge && watchdog == if p.timeoutPositive then Sleeping else NoWatchdog
    {
      frozenByBridge := true;
      if p.timeoutPositive {
        watchdog := Sleeping;
      }
    }

    /** Sends the clear commands and the flush. */
    method KillAndFlush() returns (ok: bool)
      requires UnderWay()
      modifies `frozen, `watchdog, `watchdogUnfroze, `restored, `tickFault, `applied, `releasedAfter, `calls, `steady
      ensures UnderWay()
      ensures !watchdogUnfroze ==> tickFault == old(tickFault)
      ensures old(watchdogUnfroze) ==> watchdogUnfroze
      ensures ok ==> calls == old(calls) + Kills(clears) + [SaveAll]
      ensures old(KillsOfClear()) ==> KillsOfClear()
      ensures old(LetGo()) ==> LetGo() && ok
      ensures old(Calm()) ==> Calm() && ok
    {
      hide UnderWay, LateRelease, AllReply, Armed, LetGo, Calm;
      for i := 0 to |clears|
        invariant UnderWay() && calls == old(calls) + Kills(clears[..i])
        invariant !watchdogUnfroze ==> tickFault == old(tickFault)
        invariant old(watchdogUnfroze) ==> watchdogUnfroze
        invariant old(KillsOfClear()) ==> KillsOfClear()
        invariant old(LetGo()) ==> LetGo()
        invariant old(Calm()) ==> Calm()
      {
        var r := CallPlain(Kill(clears[i]));
        assert Kills(clears[..i + 1]) == Kills(clears[..i]) + [Kill(clears[i])];
        if !r.Replied? {
          return false;
        }
      }
      assert clears[..|clears|] == clears;
      var r := CallPlain(SaveAll);
      ok := r.Replied?;
    }

    /** Every kill sent so far is one of the clear commands. */
    ghost predicate KillsOfClear()
      reads `calls, `clears
    {
      forall c :: c in calls && c.Kill? ==> c.command in clears
    }

    /** Lets the game run for the clear. */
    method LetRun() returns (ok: bool)
      requires UnderWay() && !clearedWhileRunning && Held() && (!watchdogUnfroze ==> !tickFault)
      modifies `frozen, `watchdog, `watchdogUnfroze, `restored, `tickFault, `applied, `releasedAfter, `calls, `steady, `clearedWhileRunning
      ensures UnderWay() && calls == old(calls) + [TickUnfreeze]
      ensures ok ==> clearedWhileRunning && (!watchdogUnfroze ==> !tickFault)
      ensures old(Armed(2)) ==> LetGo() && ok
      ensures old(Calm()) ==> Calm() && ok
    {
      hide WorldOk, TicksOf, LateRelease, AllReply, Armed, LetGo, Calm;
      var r := CallTick(TickUnfreeze);
      if r.Replied? {
        clearedWhileRunning := true;
      }
      ok := r.Replied?;
    }

    /** Holds the world again after the clear. */
    method HoldAgain() returns (ok: bool)
      requires UnderWay() && clearedWhileRunning && !refrozen && (!watchdogUnfroze ==> !tickFault)
      modifies `frozen, `watchdog, `watchdogUnfroze, `restored, `tickFault, `applied, `releasedAfter, `calls, `steady, `refrozen
      ensures UnderWay() && calls == old(calls) + [TickFreeze]
      ensures ok ==> refrozen && (!watchdogUnfroze ==> !tickFault)
      ensures old(LetGo()) ==> LetGo() && ok
      ensures old(Calm()) ==> Calm() && ok
    {
      hide WorldOk, TicksOf, LateRelease, AllReply, Armed, LetGo, Calm;
      var r := CallTick(TickFreeze);
      if r.Replied? {
        refrozen := true;
      }
      ok := r.Replied?;
    }

    /** Runs the clear commands while the game runs, and holds the world again. */
    method ClearWindow() returns (ok: bool)
      requires UnderWay() && !clearedWhileRunning && !refrozen && (p.freeze ==> Held()) && (!watchdogUnfroze ==> !tickFault)
      requires KillsOfClear()
      modifies `frozen, `watchdog, `watchdogUnfroze, `restored, `tickFault, `applied, `releasedAfter, `calls, `steady, `clearedWhileRunning, `refrozen
      ensures UnderWay() && KillsOfClear()
      ensures ok ==> (clearedWhileRunning ==> refrozen) && (!watchdogUnfroze ==> !tickFault)
      ensures ok ==> calls == old(calls) + WindowCalls(p.freeze, clears)
      ensures old(Armed(2)) ==> LetGo() && refrozen
      ensures old(Calm()) ==> Calm() && ok
    {
      LateParams();
      hide UnderWay, LateRelease, AllReply, LetGo, Calm;
      if Held() {
        ok := LetRun();
        if !ok {
          return;
        }
      }
      ok := KillAndFlush();
      if ok && Held() {
        ok := HoldAgain();
      }
    }

    /** Every clear command is aimed at a collision of the baseline. */
    ghost predicate ClearsAimed()
      reads `clears, `targets
    {
      forall c :: c in clears ==> Aimed(c, targets, p.collisionRadius, p.round)
    }

    lemma NoKillsYet()
      requires KillFree(calls)
      ensures KillsOfClear() && (clears == [] ==> ClearsAimed())
    {}

    /** Nothing of any type stands within half a block of a recorded position, or
        within the collision radius where that is wider. */
    ghost predicate NothingStands(entities: seq<Record>) {
      forall i, k :: 0 <= i < |entities| && 0 <= k < |expected| && entities[i].pos.Some? && expected[k].pos.Some? ==>
        !Within(expected[k].pos.value, entities[i].pos.value, if p.collisionRadius < 0.5 then 0.5 else p.collisionRadius)
    }

    lemma StandsWhenNear(entities: seq<Record>)
      ensures NothingStands(entities) <==>
                !exists i :: 0 <= i < |entities| && Near(entities[i], expected, if p.collisionRadius < 0.5 then 0.5 else p.collisionRadius)
    {
      var radius := if p.collisionRadius < 0.5 then 0.5 else p.collisionRadius;
      hide Within;
      if i :| 0 <= i < |entities| && Near(entities[i], expected, radius) {
        var k :| 0 <= k < |expected| && NearOne(expected[k], entities[i], radius);
      } else {
        forall i, k | 0 <= i < |entities| && 0 <= k < |expected| && entities[i].pos.Some? && expected[k].pos.Some?
          ensures !Within(expected[k].pos.value, entities[i].pos.value, radius)
        {
          assert !Near(entities[i], expected, radius);
          assert !NearOne(expected[k], entities[i], radius);
        }
      }
    }

    /** Looks at the world once more: nothing may collide, and nothing of any
        type may stand where an entity is recorded. */
    method Recheck() returns (ok: bool)
      requires UnderWay()
      modifies `frozen, `watchdog, `watchdogUnfroze, `restored, `tickFault, `applied, `releasedAfter, `calls, `steady, `before
      ensures UnderWay() && calls == old(calls) + [Snapshot(Cleared)]
      ensures !watchdogUnfroze ==> tickFault == old(tickFault)
      ensures old(watchdogUnfroze) ==> watchdogUnfroze
      ensures ok ==> NoneCollides(expected, before, p.collisionRadius)
      ensures old(LetGo()) ==> LetGo()
      ensures ok ==> before == world.fates(|old(calls)|).entities
      ensures old(KillsOfClear()) ==> KillsOfClear()
      ensures var seen := world.fates(|old(calls)|);
              ok <==> && seen.reply.Replied? && seen.readable && NoneCollides(expected, seen.entities, p.collisionRadius)
                      && NothingStands(seen.entities)
      ensures old(Calm()) ==> Calm() && (ok <==> NoneCollides(expected, before, p.collisionRadius) && NothingStands(before))
    {
      hide UnderWay, NoneCollides, Near, AimedAt, Covered, LateRelease, AllReply, Armed, LetGo, NothingStands;
      var seen := world.fates(|calls|);
      var r := CallPlain(Snapshot(Cleared));
      if !r.Replied? || !seen.readable {
        return false;
      }
      before := seen.entities;
      var remaining, _, _, _ := Collisions(expected, before, p.collisionRadius, p.round);
      var leftover := AnythingNear(before, expected, if p.collisionRadius < 0.5 then 0.5 else p.collisionRadius);
      StandsWhenNear(before);
      ok := remaining == [] && !leftover;
    }

    /** Clears the leftovers, and sees that they are gone. */
    method Clear() returns (ok: bool)
      requires UnderWay() && !clearedWhileRunning && !refrozen && (p.freeze ==> Held()) && (!watchdogUnfroze ==> !tickFault)
      requires KillFree(calls)
      modifies `frozen, `watchdog, `watchdogUnfroze, `restored, `tickFault, `applied, `releasedAfter, `calls, `steady,
               `clearedWhileRunning, `refrozen, `before, `clears, `window
      ensures UnderWay() && KillsOfClear() && ClearsAimed()
      ensures ok ==> Ready() && NoneCollides(expected, before, p.collisionRadius)
      ensures ok ==> window == WindowCalls(p.freeze, clears) && calls == old(calls) + window + [Snapshot(Cleared)]
      ensures old(Armed(2)) ==> LetGo() && refrozen
      ensures ok ==> before == world.fates(|calls| - 1).entities
      ensures ok ==> NothingStands(before)
      ensures old(Calm()) ==> Calm() && (ok <==> NoneCollides(expected, before, p.collisionRadius) && NothingStands(before))
    {
      hide UnderWay, WorldOk, KillFree, KillsOfClear, NoneCollides, Covered, Aimed, WindowCalls, LateRelease, AllReply, Armed, LetGo, Calm;
      clears := ClearCommands(targets, p.collisionRadius, p.round);
      NoKillsYet();
      ok := ClearWindow();
      if ok {
        window := WindowCalls(p.freeze, clears);
        ok := Recheck();
      }
    }

    /** Takes the baseline: what it shows of the dimension and of the recording. */
    method TakeBaseline() returns (ok: bool)
      requires UnderWay()
      modifies `frozen, `watchdog, `watchdogUnfroze, `restored, `tickFault, `applied, `releasedAfter, `calls, `steady,
               `before, `baselineDimension, `targets
      ensures UnderWay() && calls == old(calls) + [Snapshot(Baseline)]
      ensures !watchdogUnfroze ==> tickFault == old(tickFault)
      ensures old(watchdogUnfroze) ==> watchdogUnfroze
      ensures ok ==> InWantedDimension(p.expectDimension, p.dimension, baselineDimension)
      ensures var seen := world.fates(|old(calls)|);
              ok <==> seen.reply.Replied? && seen.readable && InWantedDimension(p.expectDimension, p.dimension, seen.dimension)
      ensures ok ==> (targets == [] <==> NoneCollides(expected, before, p.collisionRadius))
      ensures old(Armed(1)) ==> ok && Armed(2) && targets != []
      ensures ok ==> before == world.fates(|old(calls)|).entities && baselineDimension == world.fates(|old(calls)|).dimension
      ensures old(Calm()) ==> Calm()
      ensures old(Calm()) && !ok ==> !InWantedDimension(p.expectDimension, p.dimension, world.fates(|old(calls)|).dimension)
    {
      hide UnderWay, NoneCollides, InWantedDimension, DimensionPasses, LetGo, AllReply;
      var seen := world.fates(|calls|);
      var r := CallPlain(Snapshot(Baseline));
      if !r.Replied? || !seen.readable {
        return false;
      }
      before, baselineDimension := seen.entities, seen.dimension;
      var found, _, _, _ := Collisions(expected, before, p.collisionRadius, p.round);
      targets := found;
      ok := DimensionPasses(p.expectDimension, p.dimension, baselineDimension);
    }

    /** The world is held and the area loaded; nothing else has happened. */
    ghost predicate Secured()
      reads `frozen, `watchdog, `watchdogUnfroze, `prior, `frozenByBridge, `clearedWhileRunning, `refrozen, `restored,
            `tickFault, `misread, `calls, `steady, `applied, `releasedAfter, `clears, `window
    {
      && UnderWay() && (p.freeze ==> Held()) && (!watchdogUnfroze ==> !tickFault)
      && !clearedWhileRunning && !refrozen && clears == [] && window == []
      && calls == Prelude() && KillFree(calls)
    }

    /** The destination was looked at last, and is fit for the summons. */
    ghost predicate Prepared()
      reads `frozen, `watchdog, `watchdogUnfroze, `prior, `frozenByBridge, `clearedWhileRunning, `refrozen, `restored,
            `tickFault, `misread, `calls, `steady, `applied, `releasedAfter, `clears, `window, `before, `baselineDimension
    {
      && Ready() && Unobstructed() && (window == [] || window == WindowCalls(p.freeze, clears))
      && calls == LookedAt() && before == world.fates(|calls| - 1).entities
    }

    /** The baseline shows the wanted dimension, and nothing in it stands in the
        way, or may be cleared away and was. */
    ghost predicate Fit()
      reads `frozenByBridge, `before
    {
      var seen := world.fates(|Prelude()|);
      && InWantedDimension(p.expectDimension, p.dimension, seen.dimension)
      && (p.checkExisting && !NoneCollides(expected, seen.entities, p.collisionRadius) ==>
            p.replaceExisting && NoneCollides(expected, before, p.collisionRadius) && NothingStands(before))
    }

    /** Takes the baseline, and refuses or clears what the restore would duplicate. */
    method CheckDestination() returns (ok: bool)
      requires Secured()
      modifies `frozen, `watchdog, `watchdogUnfroze, `restored, `tickFault, `applied, `releasedAfter, `calls, `steady,
               `clearedWhileRunning, `refrozen, `before, `baselineDimension, `targets, `clears, `window
      ensures UnderWay() && KillsOfClear() && ClearsAimed()
      ensures ok ==> Prepared()
      ensures old(Armed(1)) ==> LetGo() && refrozen
      ensures var seen := world.fates(|old(calls)|);
              (&& seen.reply.Replied? && seen.readable && InWantedDimension(p.expectDimension, p.dimension, seen.dimension)
               && (p.checkExisting ==> NoneCollides(expected, seen.entities, p.collisionRadius)))
              ==> ok
      ensures var seen := world.fates(|old(calls)|);
              ok && p.checkExisting && !NoneCollides(expected, seen.entities, p.collisionRadius) ==> p.replaceExisting && window != []
      ensures old(Calm()) ==> Calm() && (ok <==> Fit())
    {
      LateParams();
      hide PreludeCalls, UnderWay, NoneCollides, InWantedDimension, Aimed, Covered, WindowCalls, LateRelease, AllReply, LetGo, Calm;
      ok := TakeBaseline();
      if !ok || (targets != [] && p.checkExisting && !p.replaceExisting) {
        return false;
      }
      if targets != [] && p.checkExisting && p.replaceExisting {
        ok := Clear();
        WindowIsSome(p.freeze, clears);
      }
    }

    lemma WindowIsSome(ticks: bool, clears: seq<KillCommand>)
      ensures WindowCalls(ticks, clears) != []
    {}

    /** After a clear the destination is looked at again. */
    ghost function SecondLook(): seq<Call>
      reads `window
    {
      if window == [] then [] else [Snapshot(Cleared)]
    }

    /** The dimension is the wanted one, and with duplicate checking on, nothing
        in the last snapshot before the summons collides with the recording. */
    ghost predicate Unobstructed()
      reads `before, `baselineDimension
    {
      && InWantedDimension(p.expectDimension, p.dimension, baselineDimension)
      && (p.checkExisting ==> NoneCollides(expected, before, p.collisionRadius))
    }

    /** What comes before the baseline. */
    ghost function Prelude(): seq<Call>
      reads `frozenByBridge
    {
      PreludeCalls(p.freeze && p.prior.Auto?, frozenByBridge, p.forceload && p.hasBox)
    }

    /** The calls up to the last look before the summons. */
    ghost function LookedAt(): seq<Call>
      reads `frozenByBridge, `window
    {
      Prelude() + [Snapshot(Baseline)] + window + SecondLook()
    }

    /** Everything up to the first summon: hold the world, load the area, and
        prove the destination fit. */
    method Prepare() returns (ok: bool)
      requires Fresh()
      modifies `frozen, `watchdog, `watchdogUnfroze, `restored, `tickFault, `applied, `releasedAfter, `calls, `steady,
               `prior, `misread, `frozenByBridge, `clearedWhileRunning, `refrozen,
               `before, `baselineDimension, `targets, `clears, `window
      ensures UnderWay() && KillsOfClear() && ClearsAimed() && (ok ==> Prepared())
      ensures LateRelease() ==> LetGo() && refrozen
      ensures Smooth() ==> Calm() && (ok <==> Fit())
    {
      hide Fresh, UnderWay, KillFree, KillsOfClear, ClearsAimed, Secured, Prepared, InWantedDimension, NoneCollides, LateRelease, Armed, LetGo, Calm, Fit, Smooth;
      ok := Secure();
      if !ok {
        NoKillsYet();
        return;
      }
      ok := CheckDestination();
    }

    /** Holds the world and loads the area. */
    method Secure() returns (ok: bool)
      requires Fresh()
      modifies `frozen, `watchdog, `watchdogUnfroze, `restored, `tickFault, `applied, `releasedAfter, `calls, `steady, `prior, `misread, `frozenByBridge
      ensures UnderWay() && KillFree(calls) && clears == [] && (ok ==> Secured())
      ensures LateRelease() ==> ok && Armed(1)
      ensures Smooth() ==> ok && Calm()
    {
      FreshIsUnderWay();
      LateParams();
      hide Fresh, UnderWay, WorldOk, Held, Prelude, Unloaded, PreludeCalls, KillFree, LateRelease, AllReply, Armed, LetGo, Calm, Smooth;
      if p.freeze {
        ok := TakeHold();
        if !ok {
          return;
        }
      }
      ok := true;
      if p.forceload && p.hasBox {
        ok := LoadArea();
      }
    }

    /** The same without the area. */
    ghost function Unloaded(): (calls: seq<Call>)
      reads `frozenByBridge
      ensures !(p.forceload && p.hasBox) ==> calls == Prelude()
    {
      PreludeCalls(p.freeze && p.prior.Auto?, frozenByBridge, false)
    }

    method LoadArea() returns (ok: bool)
      requires UnderWay() && KillFree(calls)
      requires calls == Unloaded() && p.forceload && p.hasBox
      modifies `frozen, `watchdog, `watchdogUnfroze, `restored, `tickFault, `applied, `releasedAfter, `calls, `steady
      ensures UnderWay() && KillFree(calls)
      ensures calls == Prelude()
      ensures !watchdogUnfroze ==> tickFault == old(tickFault)
      ensures old(watchdogUnfroze) ==> watchdogUnfroze
      ensures old(Calm()) ==> Calm() && ok
    {
      hide UnderWay, WorldOk, LateRelease, AllReply, Armed, LetGo, Calm;
      var r := CallPlain(Forceload);
      ok := r.Replied?;
    }

    lemma FreshIsUnderWay()
      requires Fresh()
      ensures UnderWay() && !tickFault && KillFree(calls) && (!p.freeze ==> calls == Unloaded())
      ensures clears == [] && window == [] && !clearedWhileRunning && !refrozen
    {}

    lemma LateParams()
      ensures LateRelease() ==> p.freeze && !(p.forceload && p.hasBox) && p.checkExisting && p.replaceExisting
    {}

    /** Learns the tick state and holds a running world. */
    method TakeHold() returns (ok: bool)
      requires Fresh() && UnderWay() && p.freeze
      modifies `frozen, `watchdog, `watchdogUnfroze, `restored, `tickFault, `applied, `releasedAfter, `calls, `steady, `prior, `misread, `frozenByBridge
      ensures UnderWay() && (ok ==> Held() && !tickFault && calls == Unloaded())
      ensures KillFree(calls)
      ensures LateRelease() ==> ok && Armed(1)
      ensures Smooth() ==> ok && Calm()
    {
      hide UnderWay, LateRelease, AllReply, Armed;
      ok := ResolvePrior();
      if ok {
        ok := Hold();
      }
    }

    /** The world is held, re-held after a clear, and nothing went wrong with it. */
    ghost predicate Ready()
      reads `frozen, `watchdog, `watchdogUnfroze, `prior, `frozenByBridge, `clearedWhileRunning, `refrozen, `restored,
            `tickFault, `misread, `calls, `steady, `applied, `releasedAfter
    {
      UnderWay() && (p.freeze ==> Held()) && (clearedWhileRunning ==> refrozen) && (!watchdogUnfroze ==> !tickFault)
    }

    // ---------------------------------------------------------------- cleanup

    /** Lets a sleeping watchdog return, and waits a while for a fired one. */
    method StopWatchdog()
      requires UnderWay()
      modifies `frozen, `watchdog, `watchdogUnfroze, `restored, `tickFault, `releasedAfter
      ensures UnderWay() && !watchdog.Sleeping?
      ensures old(watchdogUnfroze) ==> watchdogUnfroze
      ensures !watchdogUnfroze ==> tickFault == old(tickFault)
      ensures old(LetGo()) ==> LetGo()
      ensures old(Calm()) ==> Calm()
    {
      WaitWith(world.closing);
      if watchdog.Sleeping? {
        watchdog := Finished;
      }
    }

    /** The re-freeze of the clear, the third tick command there is, took effect
        after the watchdog's release did. */
    ghost predicate ClearedOverRelease()
      reads `refrozen, `releasedAfter
    {
      refrozen && releasedAfter.Some? && releasedAfter.value <= 2
    }

    /** The world is as it was found, unless the watchdog had to release it and
        the clear froze it again afterwards. */
    ghost predicate PutBack()
      reads `frozen, `watchdog, `tickFault, `misread, `refrozen, `releasedAfter
    {
      && (!tickFault && !misread && !watchdog.Firing? ==> (frozen == initiallyFrozen <==> !ClearedOverRelease()))
      && (!p.freeze ==> frozen == initiallyFrozen)
    }

    /** The tick commands sent in all: the hold, the clear's pair, and the release
        unless the watchdog came first. */
    ghost predicate Returned()
      reads `watchdogUnfroze, `prior, `frozenByBridge, `clearedWhileRunning, `refrozen, `tickFault, `calls
    {
      !tickFault ==>
        && TicksOf(calls) == DoneTicks() + (if frozenByBridge && !watchdogUnfroze then [false] else [])
        && (prior == Some(true) && clearedWhileRunning ==> refrozen)
    }

    /** With these commands and the laws of the world, the tick state is as found. */
    lemma ReturnedIsPutBack()
      requires WorldOk() && Returned() && !watchdog.Sleeping? && (!p.freeze ==> !tickFault && !frozenByBridge && !clearedWhileRunning)
      requires (prior.Some? && !misread ==> prior.value == initiallyFrozen) && (prior.None? ==> !frozenByBridge && !clearedWhileRunning)
      requires (frozenByBridge ==> prior == Some(false)) && (clearedWhileRunning && !frozenByBridge ==> prior == Some(true))
      requires (!watchdog.NoWatchdog? ==> frozenByBridge) && (refrozen ==> clearedWhileRunning)
      ensures PutBack()
    {}

    /** Undoes the bridge's own freeze, and releases the loaded area. */
    method Release() returns (interrupted: bool)
      requires UnderWay() && !watchdog.Sleeping?
      requires !tickFault && prior == Some(true) && clearedWhileRunning ==> refrozen
      modifies `frozen, `watchdog, `watchdogUnfroze, `restored, `tickFault, `applied, `releasedAfter, `calls, `steady
      ensures WorldOk() && PutBack() && Returned() && watchdogUnfroze == old(watchdogUnfroze)
      ensures !watchdogUnfroze ==> (restored == Some(true) ==> frozenByBridge && tickFault == old(tickFault))
      ensures !watchdogUnfroze && !frozenByBridge ==> tickFault == old(tickFault)
      ensures !interrupted ==> calls == old(calls) + EpilogueCalls(frozenByBridge && !watchdogUnfroze, p.releaseForceload && p.hasBox)
      ensures interrupted <==> |calls| > |old(calls)| && world.fates(|calls| - 1).reply.Cancelled?
      ensures old(KillsOfClear()) ==> KillsOfClear()
      ensures old(LetGo()) ==> LetGo()
      ensures old(Calm()) ==> Calm() && !interrupted && (frozenByBridge ==> restored == Some(true))
    {
      hide SteadyLaw, TicksOf, LateRelease, Armed;
      interrupted := Unhold();
      if !interrupted && p.releaseForceload && p.hasBox {
        ghost var sent := calls;
        var r := CallMod(ReleaseForceload);
        TicksSnoc(sent, ReleaseForceload);
        interrupted := r.Cancelled?;
      }
      hide WorldOk, Returned, PutBack;
      ReturnedIsPutBack();
    }

    /** The unfreeze, unless the watchdog has sent one. */
    method Unhold() returns (interrupted: bool)
      requires UnderWay() && !watchdog.Sleeping?
      requires !tickFault && prior == Some(true) && clearedWhileRunning ==> refrozen
      modifies `frozen, `watchdog, `watchdogUnfroze, `restored, `tickFault, `applied, `releasedAfter, `calls, `steady
      ensures WorldOk() && Returned() && watchdogUnfroze == old(watchdogUnfroze) && !watchdog.Sleeping?
      ensures !watchdog.NoWatchdog? ==> frozenByBridge
      ensures !watchdogUnfroze ==> (restored == Some(true) ==> frozenByBridge && tickFault == old(tickFault))
      ensures !frozenByBridge || watchdogUnfroze ==> calls == old(calls)
      ensures frozenByBridge && !watchdogUnfroze ==> calls == old(calls) + [TickUnfreeze]
      ensures !frozenByBridge ==> tickFault == old(tickFault)
      ensures old(LetGo()) ==> LetGo()
      ensures old(Calm()) ==> Calm() && !interrupted && (frozenByBridge ==> restored == Some(true))
      ensures interrupted <==> frozenByBridge && !watchdogUnfroze && world.fates(|old(calls)|).reply.Cancelled?
      ensures restored == if frozenByBridge && !watchdogUnfroze && !interrupted then Some(world.fates(|old(calls)|).reply.Replied?)
                          else old(restored)
    {
      hide LateRelease, AllReply, Armed, LetGo, Calm;
      WhenCalm(|calls|);
      interrupted := false;
      if frozenByBridge && !watchdogUnfroze {
        var r := CallTick(TickUnfreeze);
        if r.Cancelled? {
          return true;
        }
        restored := Some(r.Replied?);
      }
    }

    /** The failure path of the preparation: whatever was reached, the world's
        tick state is put back before the original error goes out. */
    method Abort()
      requires UnderWay()
      modifies `frozen, `watchdog, `watchdogUnfroze, `restored, `tickFault, `applied, `releasedAfter, `calls, `steady, `refrozen
      ensures PutBack() && Returned() && (old(KillsOfClear()) ==> KillsOfClear())
      ensures old(LetGo()) ==> LetGo()
      ensures old(refrozen) ==> refrozen
      ensures AllReply() && p.releaseForceload && p.hasBox ==> calls != [] && calls[|calls| - 1] == ReleaseForceload
    {
      hide LateRelease, AllReply, Armed, LetGo, UnderWay, WorldOk, PutBack, Returned;
      StopWatchdog();
      AllReplyAt(|calls|);
      var cancelled := Refreeze();
      if !cancelled {
        var interrupted := Release();
        if interrupted {
          AllReplyAt(|calls| - 1);
        }
      }
    }

    /** A world that was frozen before and ran for a clear is frozen again. */
    method Refreeze() returns (cancelled: bool)
      requires UnderWay() && !watchdog.Sleeping?
      modifies `frozen, `watchdog, `watchdogUnfroze, `restored, `tickFault, `applied, `releasedAfter, `calls, `steady, `refrozen
      ensures !watchdog.Sleeping? && (if cancelled then PutBack() && Returned() else UnderWay())
      ensures !cancelled && !tickFault && prior == Some(true) && clearedWhileRunning ==> refrozen
      ensures old(KillsOfClear()) ==> KillsOfClear()
      ensures old(LetGo()) ==> LetGo()
      ensures old(refrozen) ==> refrozen
      ensures var due := p.freeze && prior == Some(true) && clearedWhileRunning && !old(refrozen);
              && calls == old(calls) + (if due then [TickFreeze] else [])
              && (cancelled <==> due && world.fates(|old(calls)|).reply.Cancelled?)
              && refrozen == (if due then world.fates(|old(calls)|).reply.Replied? else old(refrozen))
    {
      hide LateRelease, AllReply, Armed, LetGo, SteadyLaw;
      cancelled := false;
      if p.freeze && prior == Some(true) && clearedWhileRunning && !refrozen {
        var r := CallTick(TickFreeze);
        cancelled := r.Cancelled?;
        refrozen := r.Replied?;
        if cancelled {
          ReturnedIsPutBack();
        }
      }
    }

    // ----------------------------------------------- summons and verification

    /** A call that does not touch the tick, in a world that is ready. */
    method CallReady(call: Call) returns (r: Outcome)
      requires Ready() && !ChangesTick(call)
      modifies `frozen, `watchdog, `watchdogUnfroze, `restored, `tickFault, `applied, `releasedAfter, `calls, `steady
      ensures Ready() && calls == old(calls) + [call] && r == world.fates(|old(calls)|).reply
      ensures old(LetGo()) ==> LetGo()
      ensures old(Calm()) ==> Calm() && r.Replied?
    {
      hide UnderWay, Held, LateRelease, AllReply, Armed, LetGo, Calm;
      r := CallPlain(call);
    }

    /** Of the first `k` items, whose summons were the requests from `start` on,
        exactly those failed whose own request raised. */
    ghost predicate Tried(failed: set<nat>, k: nat, start: nat) {
      && k <= |items| && (forall f :: f in failed ==> f in items[..k])
      && forall i :: 0 <= i < k ==> (items[i] in failed <==> ReplyAt(start, i).Raised?)
    }

    function ReplyAt(start: nat, i: nat): Outcome {
      world.fates(start + i).reply
    }

    lemma OneMoreTried(failed: set<nat>, k: nat, start: nat)
      requires ItemsFit() && k < |items| && Tried(failed, k, start)
      ensures Tried(if ReplyAt(start, k).Raised? then failed + {items[k]} else failed, k + 1, start)
    {
      assert items[..k + 1] == items[..k] + [items[k]];
      assert items[k] !in items[..k];
    }

    /** Summons the items in order; a cancellation ends it, and so does the first
        failure unless told to go on. */
    method SummonAll() returns (cancelled: bool)
      requires ItemsFit() && Ready() && attempted == 0 && failed == {}
      modifies `frozen, `watchdog, `watchdogUnfroze, `restored, `tickFault, `applied, `releasedAfter, `calls, `steady, `attempted, `failed
      ensures Ready() && Tried(failed, attempted, |old(calls)|)
      ensures calls == old(calls) + Summons(items[..attempted])
      ensures forall i :: 0 <= i < attempted ==>
                (ReplyAt(|old(calls)|, i).Cancelled? <==> cancelled && i == attempted - 1)
      ensures cancelled ==> attempted > 0
      ensures !cancelled && (failed == {} || p.keepGoing) ==> attempted == |items|
      ensures !p.keepGoing ==> failed == {} || failed == {items[attempted - 1]}
      ensures old(LetGo()) ==> LetGo()
      ensures old(Calm()) ==> Calm() && !cancelled && failed == {} && attempted == |items|
      ensures !cancelled && failed == {} ==> AllSummoned(|old(calls)|)
    {
      hide Summons, Ready, LetGo, Calm, ItemsFit, Tried;
      cancelled := false;
      SummonsNone(items[..0]);
      NoneTried(|calls|);
      while attempted < |items| && (failed == {} || p.keepGoing)
        invariant Ready() && attempted <= |items| && Tried(failed, attempted, |old(calls)|)
        invariant calls == old(calls) + Summons(items[..attempted])
        invariant forall i :: 0 <= i < attempted ==> !ReplyAt(|old(calls)|, i).Cancelled?
        invariant !p.keepGoing ==> failed == {} || (attempted > 0 && failed == {items[attempted - 1]})
        invariant old(LetGo()) ==> LetGo()
        invariant old(Calm()) ==> Calm() && failed == {}
        decreases |items| - attempted
      {
        var item := items[attempted];
        OneMoreTried(failed, attempted, |old(calls)|);
        SummonsSnoc(items[..attempted], item);
        assert items[..attempted + 1] == items[..attempted] + [item];
        attempted := attempted + 1;
        var r := CallReady(Summon(item));
        assert r == ReplyAt(|old(calls)|, attempted - 1);
        if r.Cancelled? {
          return true;
        }
        if r.Raised? {
          failed := failed + {item};
        }
      }
      if failed == {} {
        NoneRaised(attempted, |old(calls)|);
      }
    }

    /** The game replied to every summon. */
    ghost predicate AllSummoned(start: nat) {
      forall i :: 0 <= i < |items| ==> ReplyAt(start, i).Replied?
    }

    lemma NoneRaised(k: nat, start: nat)
      requires Tried({}, k, start)
      ensures forall i :: 0 <= i < k ==> !ReplyAt(start, i).Raised?
    {}

    lemma NoneTried(start: nat)
      ensures Tried({}, 0, start)
    {}

    /** The destination last looked at is what the recording promises. */
    ghost predicate Matches()
      reads `checked, `checkedDimension
    {
      && DimensionOk(p.dimension, checkedDimension)
      && if p.strict then StrictlySame(expected, checked, p.options) else AppearsIn(expected, checked, p.options)
    }

    /** The failures grew by exactly the attempted items that the destination
        does not show. */
    ghost predicate MissingAdded(before: set<nat>)
      requires attempted <= |items| && ItemsFit()
      reads `failed, `attempted, `checked
    {
      && (forall i :: 0 <= i < attempted ==>
            (items[i] in failed <==> items[i] in before || Uuid(expected[items[i]]) !in Uuids(checked)))
      && forall f :: f in failed ==> f in before || f in items[..attempted]
    }

    /** What was judged is what that request's snapshot showed. */
    ghost predicate ShownIn(request: nat)
      reads `checked, `checkedDimension
    {
      checked == world.fates(request).entities && checkedDimension == world.fates(request).dimension
    }

    /** An item that is not in the destination failed, if it had not already. */
    method MarkMissing()
      requires attempted <= |items| && ItemsFit()
      modifies `failed
      ensures old(failed) <= failed
      ensures MissingAdded(old(failed))
    {
      var uuids := Uuids(checked);
      for i := 0 to attempted
        invariant old(failed) <= failed
        invariant forall k :: 0 <= k < i && Uuid(expected[items[k]]) !in uuids ==> items[k] in failed
        invariant forall f :: f in failed ==> f in old(failed) || (f < |expected| && Uuid(expected[f]) !in uuids && f in items[..attempted])
      {
        if Uuid(expected[items[i]]) !in uuids {
          failed := failed + {items[i]};
        }
      }
    }

    /** Compares what the check snapshot showed; an item that is not there failed. */
    method Judge(seen: Fate)
      requires attempted <= |items| && ItemsFit()
      modifies `failed, `verification, `checked, `checkedDimension
      ensures checked == seen.entities && checkedDimension == seen.dimension
      ensures verification.Some? && (verification.value <==> Matches()) && old(failed) <= failed
      ensures MissingAdded(old(failed))
    {
      hide Reports, StrictlySame, AppearsIn, DimensionOk, Uuids, Uuid, MissingAdded, ItemsFit;
      checked, checkedDimension := seen.entities, seen.dimension;
      var ok, _ := CompareSnapshots(p.dimension, expected, checkedDimension, checked, p.strict, p.options);
      verification := Some(ok);
      MarkMissing();
    }

    /** Looks at the world again and judges what it sees. */
    method Verify() returns (cancelled: bool)
      requires Ready() && attempted <= |items| && verification == None
      requires ItemsFit()
      modifies `frozen, `watchdog, `watchdogUnfroze, `restored, `tickFault, `applied, `releasedAfter, `calls, `steady,
               `failed, `verification, `checked, `checkedDimension, `compared
      ensures Ready() && old(failed) <= failed
      ensures calls == old(calls) + [Snapshot(Check)]
      ensures !cancelled && compared ==> verification.Some? && (verification.value <==> Matches())
      ensures !cancelled && !compared ==> verification == Some(false) && failed == old(failed)
      ensures !cancelled && compared ==> MissingAdded(old(failed))
      ensures old(LetGo()) ==> LetGo()
      ensures !cancelled && compared ==> ShownIn(|old(calls)|)
      ensures var seen := world.fates(|old(calls)|);
              (cancelled <==> seen.reply.Cancelled?) && (!cancelled ==> (compared <==> seen.readable && seen.reply.Replied?))
      ensures old(Calm()) ==> Calm() && !cancelled && compared
    {
      hide Ready, LetGo, Matches, MissingAdded, ItemsFit, Calm;
      WhenCalm(|calls|);
      var seen := world.fates(|calls|);
      var r := CallReady(Snapshot(Check));
      cancelled := r.Cancelled?;
      if !cancelled {
        compared := seen.readable && r.Replied?;
        if compared {
          Judge(seen);
        } else {
          verification := Some(false);
        }
      }
    }

    /** The items are records of the recording, each once. */
    ghost predicate ItemsFit() {
      Ascending(items) && forall i :: 0 <= i < |items| ==> items[i] < |expected|
    }

    /** Every item is in the destination last looked at. */
    ghost predicate AllSeen()
      requires ItemsFit()
      reads `checked
    {
      forall i :: 0 <= i < |items| ==> Uuid(expected[items[i]]) in Uuids(checked)
    }

    predicate EverySummonWorked()
      reads `failed, `attempted
    {
      failed == {} && attempted == |items|
    }

    lemma OnlyClearKills(earlier: seq<Call>, later: seq<Call>)
      requires (forall c :: c in earlier && c.Kill? ==> c.command in clears) && forall c :: c in later ==> !c.Kill?
      ensures forall c :: c in earlier + later && c.Kill? ==> c.command in clears
    {}

    /** The summons, and the look that decides about them. */
    method SummonAndVerify() returns (cancelled: bool)
      requires Ready() && attempted == 0 && failed == {} && verification == None && KillsOfClear()
      requires ItemsFit()
      modifies `frozen, `watchdog, `watchdogUnfroze, `restored, `tickFault, `applied, `releasedAfter, `calls, `steady, `attempted,
               `failed, `verification, `checked, `checkedDimension, `compared
      ensures Ready() && KillsOfClear()
      ensures !cancelled && failed == {} ==> EverySummonWorked()
      ensures !cancelled && EverySummonWorked() ==>
                calls == old(calls) + Summons(items) + if p.verify then [Snapshot(Check)] else []
      ensures !cancelled ==> (verification.Some? <==> p.verify)
      ensures !cancelled && verification == Some(true) ==> Matches()
      ensures !cancelled && verification == Some(false) ==> !compared || !Matches()
      ensures !cancelled && verification == Some(true) && EverySummonWorked() ==> AllSeen()
      ensures old(LetGo()) ==> LetGo()
      ensures !cancelled && verification == Some(true) && EverySummonWorked() ==> ShownIn(|old(calls)| + |items|)
      ensures old(Calm()) ==> Calm() && !cancelled && attempted == |items| && (failed == {} <==> !p.verify || AllSeen()) && (p.verify ==> compared)
      ensures !cancelled && EverySummonWorked() ==> AllSummoned(|old(calls)|)
    {
      hide UnderWay, Matches, Uuids, Uuid, LateRelease, AllReply, Armed, LetGo, Calm, AllSummoned;
      cancelled := SummonAll();
      OnlyClearKills(old(calls), Summons(items[..attempted]));
      ghost var summoned := calls;
      if !cancelled && p.verify {
        cancelled := Verify();
        OnlyClearKills(summoned, [Snapshot(Check)]);
      }
      assert items[..|items|] == items;
    }

    // ----------------------------------------------------------- the verdict

    /** The report's claim that the prior tick state was left as found. */
    predicate Preserved()
      reads `prior, `clearedWhileRunning, `refrozen, `restored
    {
      !p.freeze || (if prior == Some(true) then !clearedWhileRunning || refrozen else restored == Some(true))
    }

    /** The cleanup every apply ends with. */
    method Finish() returns (interrupted: bool)
      requires Ready() && KillsOfClear()
      modifies `frozen, `watchdog, `watchdogUnfroze, `restored, `tickFault, `applied, `releasedAfter, `calls, `steady
      ensures WorldOk() && PutBack() && Returned() && KillsOfClear()
      ensures p.freeze ==> Held()
      ensures prior.Some? && !misread ==> prior.value == initiallyFrozen
      ensures !watchdogUnfroze && Preserved() ==> !tickFault && (p.freeze && !misread ==> frozen == initiallyFrozen)
      ensures !interrupted && !watchdogUnfroze ==> calls == old(calls) + EpilogueCalls(frozenByBridge, p.releaseForceload && p.hasBox)
      ensures old(LetGo()) ==> LetGo()
      ensures old(Calm()) ==> Calm() && !interrupted && Preserved() && !watchdogUnfroze
    {
      hide SteadyLaw, TicksOf, Returned, LateRelease, AllReply, Armed, LetGo;
      StopWatchdog();
      interrupted := Release();
    }

    /** The calls between the clear and the end of the check. */
    ghost function Evidence(): seq<Call>
      reads `window
    {
      SecondLook() + Summons(items) + [Snapshot(Check)]
    }

    /** With the world's laws, these calls leave the evidence in a world held still. */
    lemma EvidenceHeld(tail: seq<Call>)
      requires WorldOk() && !tickFault && !watchdogUnfroze && p.freeze && Held()
      requires prior.Some? ==> prior.value == initiallyFrozen
      requires window == [] || window == WindowCalls(true, clears)
      requires calls == Prelude() + [Snapshot(Baseline)] + window + Evidence() + tail
      ensures HeldStill(Prelude(), window, Evidence(), steady)
    {
      hide TicksOf, SteadyLaw, WindowCalls, PreludeCalls, HeldStill;
      PreludeTicks(p.freeze && p.prior.Auto?, frozenByBridge, p.forceload && p.hasBox);
      WindowEndsHeld();
      HeldStillHolds(initiallyFrozen, Prelude(), window, Evidence(), tail, steady);
    }

    /** The clear leaves the world held, if it was. */
    lemma WindowEndsHeld()
      requires LastOr(initiallyFrozen, TicksOf(Prelude())) && (window == [] || window == WindowCalls(true, clears))
      ensures LastOr(initiallyFrozen, TicksOf(Prelude() + [Snapshot(Baseline)] + window))
    {
      hide TicksOf, WindowCalls, PreludeCalls;
      TicksAppend(Prelude() + [Snapshot(Baseline)], window);
      TicksSnoc(Prelude(), Snapshot(Baseline));
      TicklessHasNone([]);
      WindowTicks(clears);
    }

    /** The summons, the verification and the cleanup. */
    method Apply() returns (ended: bool)
      requires Ready() && attempted == 0 && failed == {} && verification == None && KillsOfClear()
      requires ItemsFit()
      modifies `frozen, `watchdog, `watchdogUnfroze, `restored, `tickFault, `applied, `releasedAfter, `calls, `steady,
               `attempted, `failed, `verification, `checked, `checkedDimension, `compared
      ensures WorldOk() && PutBack() && Returned() && KillsOfClear()
      ensures p.freeze ==> Held()
      ensures prior.Some? && !misread ==> prior.value == initiallyFrozen
      ensures !watchdogUnfroze && Preserved() ==> !tickFault && (p.freeze && !misread ==> frozen == initiallyFrozen)
      ensures ended && failed == {} ==> EverySummonWorked()
      ensures ended && EverySummonWorked() && !watchdogUnfroze && p.verify ==>
                calls == old(calls) + Summons(items) + [Snapshot(Check)] + EpilogueCalls(frozenByBridge, p.releaseForceload && p.hasBox)
      ensures ended ==> (verification.Some? <==> p.verify)
      ensures ended && verification == Some(true) ==> Matches()
      ensures ended && verification == Some(false) ==> !compared || !Matches()
      ensures ended && verification == Some(true) && EverySummonWorked() ==> AllSeen()
      ensures old(LetGo()) ==> LetGo()
      ensures ended && verification == Some(true) && EverySummonWorked() ==> ShownIn(|old(calls)| + |items|)
      ensures old(Calm()) ==> Calm() && ended && Preserved() && !watchdogUnfroze && attempted == |items| && (failed == {} <==> !p.verify || AllSeen()) && (p.verify ==> compared)
      ensures ended && EverySummonWorked() ==> AllSummoned(|old(calls)|)
    {
      hide UnderWay, WorldOk, PutBack, Returned, Matches, EpilogueCalls, AllSeen, ItemsFit, Ready, LateRelease, AllReply, Armed, LetGo, Calm, AllSummoned;
      var cancelled := SummonAndVerify();
      var interrupted := Finish();
      ended := !cancelled && !interrupted;
    }

    /** What a success stands for: everything was summoned, once and in order,
        between a look at the destination and the look that matched; the world
        was held still for all of it, the clear apart, and is as it was found. */
    ghost predicate Proven()
      reads this
    {
      && EverySummonWorked() && AllSummoned(|LookedAt()|) && Matches()
      && Unobstructed() && before == world.fates(|LookedAt()| - 1).entities
      && ShownIn(|LookedAt()| + |items|)
      && (window == [] || window == WindowCalls(p.freeze, clears))
      && calls == Prelude() + [Snapshot(Baseline)] + window + Evidence() + EpilogueCalls(frozenByBridge, p.releaseForceload && p.hasBox)
      && ItemsFit() && AllSeen()
      && !watchdogUnfroze && !tickFault
      && (p.freeze && !misread ==> HeldStill(Prelude(), window, Evidence(), steady) && frozen == initiallyFrozen)
    }

    lemma UntouchedIsFine()
      requires Fresh()
      ensures WorldOk() && UnderWay() && PutBack() && Returned() && KillsOfClear() && ClearsAimed()
    {}

    /** A whole apply, with every failure the environment can choose. */
    method Run() returns (v: Verdict)
      requires Fresh()
      modifies this
      ensures v.Succeeded? ==> Proven()
      ensures v.Unverified? ==> !p.verify && EverySummonWorked() && !watchdogUnfroze
      ensures !v.Aborted? && EverySummonWorked() && verification == Some(true) && !watchdogUnfroze && Preserved() ==>
                v.Succeeded?
      ensures v.Failed? ==> !EverySummonWorked() || !Preserved() || watchdogUnfroze || !compared || !Matches()
      ensures PutBack() && Returned()
      ensures KillsOfClear() && ClearsAimed()
      ensures p.replaceExisting && !p.checkExisting ==> v.Aborted? && calls == []
      ensures LateRelease() ==> LetGo() && ClearedOverRelease()
      ensures Smooth() && (p.replaceExisting ==> p.checkExisting) ==> (v.Aborted? <==> !Fit())
      ensures Smooth() && !v.Aborted? ==> ItemsFit() && v == if !p.verify then Unverified else if AllSeen() && Matches() then Succeeded else Failed
    {
      hide UnderWay, WorldOk, PutBack, Returned, Matches, Unobstructed, Proven, Aimed, WindowCalls, PreludeCalls, ItemsFit, KillsOfClear, ClearsAimed, LateRelease, AllReply, Calm, Fit, Smooth;
      if p.replaceExisting && !p.checkExisting {
        UntouchedIsFine();
        LateParams();
        return Aborted;
      }
      var prepared := Prepare();
      if prepared {
        v := Conclude();
      } else {
        Abort();
        v := Aborted;
      }
    }

    /** Everything from the first summon to the verdict. */
    method Conclude() returns (v: Verdict)
      requires Prepared() && KillsOfClear()
      requires attempted == 0 && failed == {} && verification == None && ItemsFit()
      modifies `frozen, `watchdog, `watchdogUnfroze, `restored, `tickFault, `applied, `releasedAfter, `calls, `steady,
               `attempted, `failed, `verification, `checked, `checkedDimension, `compared
      ensures v.Succeeded? ==> Proven()
      ensures v.Unverified? ==> !p.verify && EverySummonWorked() && !watchdogUnfroze
      ensures !v.Aborted? && EverySummonWorked() && verification == Some(true) && !watchdogUnfroze && Preserved() ==>
                v.Succeeded?
      ensures v.Failed? ==> !EverySummonWorked() || !Preserved() || watchdogUnfroze || !compared || !Matches()
      ensures PutBack() && Returned() && KillsOfClear()
      ensures old(LetGo()) ==> LetGo()
      ensures old(Calm()) ==> v == if !p.verify then Unverified else if AllSeen() && Matches() then Succeeded else Failed
    {
      hide UnderWay, WorldOk, PutBack, Returned, Matches, HeldStill, Unobstructed, WindowCalls, PreludeCalls, EpilogueCalls, AllSeen, ItemsFit, KillsOfClear, LateRelease, AllReply, Armed, LetGo, Calm, AllSummoned;
      var ended := Apply();
      v := if ended then Conclusion() else Aborted;
      ghost var tail := EpilogueCalls(frozenByBridge, p.releaseForceload && p.hasBox);
      Regroup(Prelude() + [Snapshot(Baseline)] + window, SecondLook(), Summons(items), [Snapshot(Check)], tail);
      hide Summons, SecondLook, Prelude;
      if v.Succeeded? && p.freeze && !misread {
        EvidenceHeld(tail);
      }
    }

    lemma Regroup(start: seq<Call>, look: seq<Call>, summons: seq<Call>, check: seq<Call>, tail: seq<Call>)
      ensures start + look + summons + check + tail == start + (look + summons + check) + tail
    {}

    /** The verdict is about the state, not about what raised. */
    function Conclusion(): (v: Verdict)
      reads `failed, `prior, `clearedWhileRunning, `refrozen, `restored, `watchdogUnfroze, `verification
    {
      if failed != {} || !Preserved() || watchdogUnfroze then Failed
      else if verification.None? then Unverified
      else if verification.value then Succeeded
      else Failed
    }
  }

  /** Everything is answered, the baseline shows the recorded entity, the later
      snapshots show nothing, and the watchdog's time comes inside the clear. */
  function LateWorld(record: Record, dimension: Option<string>): World {
    World((i: nat) => Fate(QUIET, Replied, true, if i == 2 then LETS_GO else QUIET,
                           "", true, if i == 1 then [record] else [], dimension), QUIET)
  }

  /** A whole restore of one record into a world that already holds it, with
      replacement on. The watchdog lets the running world go while the clear has
      it run, the clear holds it again, and the cleanup leaves that to the
      watchdog. Nothing fails, every guarantee of a run holds, and a world that
      was found running stays frozen. */
  method LateRefreezeStays(p: Params, record: Record, dimension: Option<string>) returns (r: Restore, v: Verdict)
    requires p.freeze && p.prior.CallerSaysRunning? && p.timeoutPositive && !(p.forceload && p.hasBox)
    requires p.checkExisting && p.replaceExisting && Uuid(record) != ""
    requires InWantedDimension(p.expectDimension, p.dimension, dimension)
    ensures fresh(r) && r.p == p && r.expected == [record] && r.items == [0] && r.world == LateWorld(record, dimension)
    ensures !r.tickFault && !r.misread && r.watchdog.Finished? && !v.Succeeded?
    ensures r.PutBack() && r.Returned() && r.KillsOfClear() && r.ClearsAimed()
    ensures !r.initiallyFrozen && r.frozen
  {
    var world := LateWorld(record, dimension);
    r := new Restore(p, [record], [0], false, world);
    assert r.LateRelease() by {
      assert world.fates(1).entities == [record] && Uuids([record])[0] == Uuid(record) && SameIdentity([record], record);
    }
    v := r.Run();
  }
}
