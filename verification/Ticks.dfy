/** The requests a restore sends to the game, and what the tick commands among
    them mean for the world. */
module Ticks {
  import opened Destination

  datatype Stage = Baseline | Cleared | Check

  datatype Call =
    | TickQuery
    | TickFreeze
    | TickUnfreeze
    | Forceload
    | ReleaseForceload
    | Kill(command: KillCommand)
    | SaveAll
    | Snapshot(stage: Stage)
    | Summon(index: nat)

  predicate ChangesTick(call: Call) {
    call.TickFreeze? || call.TickUnfreeze?
  }

  function Kills(commands: seq<KillCommand>): seq<Call> {
    seq(|commands|, i requires 0 <= i < |commands| => Kill(commands[i]))
  }

  function Summons(items: seq<nat>): seq<Call> {
    seq(|items|, i requires 0 <= i < |items| => Summon(items[i]))
  }

  lemma SummonsSnoc(items: seq<nat>, item: nat)
    ensures Summons(items + [item]) == Summons(items) + [Summon(item)] && |Summons(items)| == |items|
  {}

  lemma SummonsNone(items: seq<nat>)
    requires items == []
    ensures Summons(items) == []
  {}

  /** The tick commands among the calls: true for a freeze. */
  function TicksOf(calls: seq<Call>): seq<bool> {
    if calls == [] then []
    else
      var last := calls[|calls| - 1];
      TicksOf(calls[..|calls| - 1]) + if ChangesTick(last) then [last.TickFreeze?] else []
  }

  /** What the last command made of the world. */
  function LastOr(initially: bool, ticks: seq<bool>): bool {
    if ticks == [] then initially else ticks[|ticks| - 1]
  }

  lemma TicksSnoc(calls: seq<Call>, call: Call)
    ensures TicksOf(calls + [call]) == TicksOf(calls) + if ChangesTick(call) then [call.TickFreeze?] else []
  {
    assert (calls + [call])[..|calls|] == calls;
  }

  lemma {:induction false} TicksAppend(a: seq<Call>, b: seq<Call>)
    ensures TicksOf(a + b) == TicksOf(a) + TicksOf(b)
    decreases |b|
  {
    if b == [] {
      assert a + b == a;
    } else {
      assert (a + b)[..|a + b| - 1] == a + b[..|b| - 1];
      TicksAppend(a, b[..|b| - 1]);
    }
  }

  predicate Tickless(calls: seq<Call>) {
    forall i :: 0 <= i < |calls| ==> !ChangesTick(calls[i])
  }

  lemma {:induction false} TicklessHasNone(calls: seq<Call>)
    requires Tickless(calls)
    ensures TicksOf(calls) == []
    decreases |calls|
  {
    if calls != [] {
      TicklessHasNone(calls[..|calls| - 1]);
    }
  }

  /** The law of steadiness: a call that starts in a world held still, and is no
      tick command itself, finds it still all the way. */
  ghost predicate SteadyLaw(initially: bool, calls: seq<Call>, steady: seq<bool>) {
    |steady| == |calls| &&
    forall i :: 0 <= i < |calls| && !ChangesTick(calls[i]) && LastOr(initially, TicksOf(calls[..i])) ==> steady[i]
  }

  lemma SteadySnoc(initially: bool, calls: seq<Call>, steady: seq<bool>, call: Call, still: bool)
    requires SteadyLaw(initially, calls, steady)
    requires !ChangesTick(call) && LastOr(initially, TicksOf(calls)) ==> still
    ensures SteadyLaw(initially, calls + [call], steady + [still])
  {
    var all, marks := calls + [call], steady + [still];
    forall i | 0 <= i < |all| && !ChangesTick(all[i]) && LastOr(initially, TicksOf(all[..i])) ensures marks[i] {
      if i < |calls| {
        assert all[..i] == calls[..i] && all[i] == calls[i];
      } else {
        assert all[..i] == calls;
      }
    }
  }

  /** The law says nothing of a tick command, nor of a call in a running world. */
  lemma SteadyLast(initially: bool, calls: seq<Call>, steady: seq<bool>)
    requires calls != [] && |steady| == |calls| && SteadyLaw(initially, calls, steady) && !LastOr(initially, TicksOf(calls))
    ensures SteadyLaw(initially, calls, steady[|calls| - 1 := false])
  {
    hide TicksOf, SteadyLaw, LastOr;
    var last := |calls| - 1;
    SteadyFront(initially, calls, steady);
    LastChangesNothing(initially, calls[..last], calls[last], calls);
    SteadySnoc(initially, calls[..last], steady[..last], calls[last], false);
    assert calls[..last] + [calls[last]] == calls;
    assert steady[..last] + [false] == steady[last := false];
  }

  /** A call that is no tick command leaves what the world is made of. */
  lemma LastChangesNothing(initially: bool, front: seq<Call>, call: Call, calls: seq<Call>)
    requires calls == front + [call]
    ensures ChangesTick(call) || LastOr(initially, TicksOf(front)) == LastOr(initially, TicksOf(calls))
  {
    TicksSnoc(front, call);
  }

  lemma SteadyFront(initially: bool, calls: seq<Call>, steady: seq<bool>)
    requires calls != [] && SteadyLaw(initially, calls, steady)
    ensures SteadyLaw(initially, calls[..|calls| - 1], steady[..|calls| - 1])
  {
    hide TicksOf;
    var front := calls[..|calls| - 1];
    forall i | 0 <= i < |front| && !ChangesTick(front[i]) && LastOr(initially, TicksOf(front[..i]))
      ensures steady[..|calls| - 1][i]
    {
      assert front[..i] == calls[..i] && front[i] == calls[i];
    }
  }

  predicate KillFree(calls: seq<Call>) {
    forall i :: 0 <= i < |calls| ==> !calls[i].Kill?
  }

  /** A stretch without tick commands that starts in a world held still is steady. */
  lemma SteadyStretch(initially: bool, a: seq<Call>, b: seq<Call>, c: seq<Call>, steady: seq<bool>, i: nat)
    requires SteadyLaw(initially, a + b + c, steady) && Tickless(b) && LastOr(initially, TicksOf(a))
    requires |a| <= i < |a| + |b|
    ensures steady[i]
  {
    var calls := a + b + c;
    assert calls[..i] == a + b[..i - |a|];
    assert calls[i] == b[i - |a|];
    TicksAppend(a, b[..i - |a|]);
    TicklessHasNone(b[..i - |a|]);
  }
}
