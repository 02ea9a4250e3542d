/** What a restore must know about its destination before it writes: which
    leftovers it would duplicate, which commands clear them, and whether the
    dimension is the recorded one. */
module Destination {
  import opened Compare
  import opened Snbt
  import opened Text
  import opened Wrappers

  // ------------------------------------------------------------------- the plan

  ghost predicate Ascending(items: seq<nat>) {
    forall i, j :: 0 <= i < j < |items| ==> items[i] < items[j]
  }

  /** The records that are summoned on their own; a record is skipped only when
      its flag says so. */
  method RestorePlan(restorable: seq<Option<bool>>) returns (items: seq<nat>, skipped: seq<nat>)
    ensures Ascending(items) && Ascending(skipped)
    ensures forall i: nat :: i in items <==> i < |restorable| && restorable[i] != Some(false)
    ensures forall i: nat :: i in skipped <==> i < |restorable| && restorable[i] == Some(false)
  {
    items, skipped := [], [];
    for index := 0 to |restorable|
      invariant Ascending(items) && Ascending(skipped)
      invariant forall i: nat :: i in items <==> i < index && restorable[i] != Some(false)
      invariant forall i: nat :: i in skipped <==> i < index && restorable[i] == Some(false)
    {
      assert forall k :: 0 <= k < |items| ==> items[k] in items;
      assert forall k :: 0 <= k < |skipped| ==> skipped[k] in skipped;
      if restorable[index] == Some(false) {
        skipped := skipped + [index];
        continue;
      }
      items := items + [index];
    }
  }

  // ----------------------------------------------------------------- collisions

  /** The destination already holds the recorded entity. */
  predicate SameIdentity(expected: seq<Record>, got: Record) {
    Uuid(got) != "" && Uuid(got) in Uuids(expected)
  }

  predicate SameSpot(want: Record, got: Record, radius: real) {
    && want.pos.Some? && got.pos.Some? && Rendered(want.kind) == Rendered(got.kind)
    && Within(want.pos.value, got.pos.value, radius)
  }

  /** An entity of a recorded type stands where one was recorded. */
  ghost predicate SamePlace(expected: seq<Record>, got: Record, radius: real) {
    exists k :: 0 <= k < |expected| && SameSpot(expected[k], got, radius)
  }

  ghost predicate Collides(expected: seq<Record>, got: Record, radius: real) {
    SameIdentity(expected, got) || SamePlace(expected, got, radius)
  }

  ghost predicate NoneCollides(expected: seq<Record>, existing: seq<Record>, radius: real) {
    forall i :: 0 <= i < |existing| ==> !Collides(expected, existing[i], radius)
  }

  /** A colliding entity as the clear sees it, at its rounded position. */
  datatype Leftover = Leftover(kind: string, at: Option<Vec>)

  /** Rounding to three decimals, a library call. */
  type Rounder = real -> real

  ghost predicate RoundsToMillis(round: Rounder) {
    forall x :: -0.0005 <= round(x) - x <= 0.0005
  }

  function Rounded(v: Vec, round: Rounder): Vec {
    Vec(round(v.x), round(v.y), round(v.z))
  }

  function LeftoverOf(got: Record, round: Rounder): Leftover {
    Leftover(Rendered(got.kind), if got.pos.None? then None else Some(Rounded(got.pos.value, round)))
  }

  method StandsThere(expected: seq<Record>, got: Record, radius: real) returns (found: bool)
    ensures found <==> SamePlace(expected, got, radius)
  {
    found := false;
    for k := 0 to |expected|
      invariant found <==> exists j :: 0 <= j < k && SameSpot(expected[j], got, radius)
    {
      found := found || SameSpot(expected[k], got, radius);
    }
  }

  /** Every colliding entity, once and in order. */
  method Collisions(expected: seq<Record>, existing: seq<Record>, radius: real, round: Rounder)
    returns (targets: seq<Leftover>, identities: nat, places: nat, ghost hits: seq<nat>)
    ensures Ascending(hits) && forall i: nat :: i in hits <==> i < |existing| && Collides(expected, existing[i], radius)
    ensures |targets| == |hits| && forall k :: 0 <= k < |hits| ==> hits[k] < |existing| && targets[k] == LeftoverOf(existing[hits[k]], round)
    ensures identities + places == |targets|
    ensures targets == [] <==> NoneCollides(expected, existing, radius)
  {
    hide Collides;
    targets, identities, places, hits := [], 0, 0, [];
    for i := 0 to |existing|
      invariant Ascending(hits) && forall j: nat :: j in hits <==> j < i && Collides(expected, existing[j], radius)
      invariant |targets| == |hits|
      invariant forall k :: 0 <= k < |hits| ==> hits[k] < |existing| && targets[k] == LeftoverOf(existing[hits[k]], round)
      invariant identities + places == |targets|
    {
      var there := StandsThere(expected, existing[i], radius);
      CollidesWhen(expected, existing[i], radius);
      if SameIdentity(expected, existing[i]) {
        identities := identities + 1;
      } else if there {
        places := places + 1;
      } else {
        continue;
      }
      targets, hits := targets + [LeftoverOf(existing[i], round)], hits + [i];
    }
    if targets != [] {
      assert hits[0] in hits;
    }
  }

  lemma CollidesWhen(expected: seq<Record>, got: Record, radius: real)
    ensures Collides(expected, got, radius) <==> SameIdentity(expected, got) || SamePlace(expected, got, radius)
  {}

  /** An entity collides if it carries a recorded identity that is not empty, or
      stands within the radius of a recorded place of its own type. */
  lemma WhatCollides(expected: seq<Record>, got: Record, radius: real)
    ensures Collides(expected, got, radius) <==>
              || (Uuid(got) != "" && exists k :: 0 <= k < |expected| && Uuid(expected[k]) == Uuid(got))
              || (exists k :: && 0 <= k < |expected| && Rendered(expected[k].kind) == Rendered(got.kind)
                              && expected[k].pos.Some? && got.pos.Some? && Within(expected[k].pos.value, got.pos.value, radius))
  {
    hide Within;
    var u := Uuids(expected);
    assert forall k :: 0 <= k < |expected| ==> u[k] == Uuid(expected[k]);
    if k :| 0 <= k < |expected| && SameSpot(expected[k], got, radius) {
      assert SamePlace(expected, got, radius);
    }
    if k :| 0 <= k < |expected| && got.pos.Some? && expected[k].pos.Some? &&
            Rendered(expected[k].kind) == Rendered(got.kind) && Within(expected[k].pos.value, got.pos.value, radius) {
      assert SameSpot(expected[k], got, radius);
    }
  }

  ghost predicate Near(got: Record, expected: seq<Record>, radius: real) {
    got.pos.Some? && exists k :: 0 <= k < |expected| && NearOne(expected[k], got, radius)
  }

  predicate NearOne(want: Record, got: Record, radius: real) {
    want.pos.Some? && got.pos.Some? && Within(want.pos.value, got.pos.value, radius)
  }

  /** Whether anything at all, of any type, stands near a recorded position. */
  method AnythingNear(entities: seq<Record>, expected: seq<Record>, radius: real) returns (found: bool)
    ensures found <==> exists i :: 0 <= i < |entities| && Near(entities[i], expected, radius)
  {
    found := false;
    for i := 0 to |entities|
      invariant found <==> exists j :: 0 <= j < i && Near(entities[j], expected, radius)
    {
      var near := false;
      for k := 0 to |expected|
        invariant near <==> exists j :: 0 <= j < k && NearOne(expected[j], entities[i], radius)
      {
        near := near || NearOne(expected[k], entities[i], radius);
      }
      found := found || near;
    }
  }

  // ---------------------------------------------------------------- the clear

  /** One kill command: an entity type (empty: anything but players) or dropped
      items, within `reach` of a point. */
  datatype KillCommand = KillKind(kind: string, at: Vec, reach: real) | KillItems(at: Vec, reach: real)

  const ITEM := "minecraft:item"
  const PLAYER := "minecraft:player"

  function KillReach(radius: real): real {
    (if radius < 0.5 then 0.5 else radius) + 0.25
  }

  function DropReach(radius: real): real {
    if 2.0 * KillReach(radius) < 2.0 then 2.0 else 2.0 * KillReach(radius)
  }

  /** A kill reaches a quarter of a block past the radius, and that is never taken
      for less than half a block; drops are looked for twice as far, and never
      nearer than two blocks. */
  lemma HowFar(radius: real)
    ensures KillReach(radius) >= 0.75 && KillReach(radius) >= radius + 0.25
    ensures KillReach(radius) == 0.75 || KillReach(radius) == radius + 0.25
    ensures DropReach(radius) >= 2.0 && DropReach(radius) >= 2.0 * KillReach(radius)
    ensures DropReach(radius) == 2.0 || DropReach(radius) == 2.0 * KillReach(radius)
  {}

  /** What the game's selector would hit. */
  predicate Hits(command: KillCommand, kind: string, pos: Vec) {
    && Within(pos, command.at, command.reach)
    && match command
       case KillKind(wanted, _, _) => if wanted == "" then kind != PLAYER else kind == wanted
       case KillItems(_, _) => kind == ITEM
  }

  /** A command is aimed at a leftover: its own type at its own place, or the
      items it may have dropped there. */
  ghost predicate AimedAt(command: KillCommand, t: Leftover, radius: real, round: Rounder) {
    t.at.Some? &&
    match command
    case KillKind(kind, at, reach) => kind == t.kind && at == t.at.value && reach == KillReach(radius)
    case KillItems(at, reach) => at == Rounded(t.at.value, round) && reach == DropReach(radius)
  }

  ghost predicate Aimed(command: KillCommand, targets: seq<Leftover>, radius: real, round: Rounder) {
    exists k :: 0 <= k < |targets| && AimedAt(command, targets[k], radius, round)
  }

  /** A command of the leftover's own type at a place that rounds to the same. */
  ghost predicate Covered(t: Leftover, commands: seq<KillCommand>, radius: real, round: Rounder) {
    t.at.Some? ==>
      exists c :: c in commands && c.KillKind? && c.kind == t.kind && c.reach == KillReach(radius) &&
        Rounded(c.at, round) == Rounded(t.at.value, round)
  }

  ghost predicate IsPlace(v: Vec, targets: seq<Leftover>, round: Rounder) {
    exists k :: 0 <= k < |targets| && targets[k].at.Some? && v == Rounded(targets[k].at.value, round)
  }

  /** One kill per type and rounded place, then one for items per rounded place.
      Nothing is aimed at anything but a leftover, and no leftover is missed, nor
      the items it may have dropped. */
  method ClearCommands(targets: seq<Leftover>, radius: real, round: Rounder) returns (commands: seq<KillCommand>)
    ensures forall c :: c in commands ==> Aimed(c, targets, radius, round)
    ensures forall k :: 0 <= k < |targets| ==> Covered(targets[k], commands, radius, round)
    ensures forall k :: 0 <= k < |targets| && targets[k].at.Some? ==>
              KillItems(Rounded(targets[k].at.value, round), DropReach(radius)) in commands
    ensures forall i, j :: 0 <= i < j < |commands| ==> !Repeats(commands[i], commands[j], round)
  {
    hide Covered, Aimed;
    var kills, places := KindCommands(targets, radius, round);
    var drops := DropCommands(targets, radius, round, places);
    commands := kills + drops;
    ghost var seen :| OncePer(kills, seen, round);
    NeverRepeats(kills, seen, drops, round);
    forall k | 0 <= k < |targets| ensures Covered(targets[k], commands, radius, round) {
      MoreCovers(targets[k], kills, drops, radius, round);
    }
  }

  /** The same type at places that round to the same, or the same item kill. */
  predicate Repeats(a: KillCommand, b: KillCommand, round: Rounder) {
    if a.KillKind? && b.KillKind? then a.kind == b.kind && Rounded(a.at, round) == Rounded(b.at, round) else a == b
  }

  /** One kill per type and rounded place, and `seen` holds those. */
  ghost predicate OncePer(commands: seq<KillCommand>, seen: set<(string, Vec)>, round: Rounder) {
    && (forall i :: 0 <= i < |commands| ==> commands[i].KillKind? && (commands[i].kind, Rounded(commands[i].at, round)) in seen)
    && forall i, j :: 0 <= i < j < |commands| ==> !Repeats(commands[i], commands[j], round)
  }

  lemma NoneYet(round: Rounder)
    ensures OncePer([], {}, round)
  {}

  lemma OneMoreKind(commands: seq<KillCommand>, seen: set<(string, Vec)>, command: KillCommand, round: Rounder)
    requires OncePer(commands, seen, round) && command.KillKind? && (command.kind, Rounded(command.at, round)) !in seen
    ensures OncePer(commands + [command], seen + {(command.kind, Rounded(command.at, round))}, round)
  {
    hide Rounded;
    var all := commands + [command];
    forall i, j | 0 <= i < j < |all| ensures !Repeats(all[i], all[j], round) {
      assert all[i] == commands[i];
    }
  }

  lemma NeverRepeats(kills: seq<KillCommand>, seen: set<(string, Vec)>, drops: seq<KillCommand>, round: Rounder)
    requires OncePer(kills, seen, round)
    requires forall i :: 0 <= i < |drops| ==> drops[i].KillItems?
    requires forall i, j :: 0 <= i < j < |drops| ==> drops[i] != drops[j]
    ensures forall i, j :: 0 <= i < j < |kills + drops| ==> !Repeats((kills + drops)[i], (kills + drops)[j], round)
  {
    hide Rounded;
    var all := kills + drops;
    forall i, j | 0 <= i < j < |all| ensures !Repeats(all[i], all[j], round) {
      if j >= |kills| {
        assert all[j] == drops[j - |kills|];
        assert i >= |kills| ==> all[i] == drops[i - |kills|];
      }
    }
  }

  lemma MoreCovers(t: Leftover, kills: seq<KillCommand>, more: seq<KillCommand>, radius: real, round: Rounder)
    requires Covered(t, kills, radius, round)
    ensures Covered(t, kills + more, radius, round)
  {
    hide KillReach, Rounded;
    assert forall c :: c in kills ==> c in kills + more;
  }

  method KindCommands(targets: seq<Leftover>, radius: real, round: Rounder)
    returns (commands: seq<KillCommand>, places: set<Vec>)
    ensures forall c :: c in commands ==> Aimed(c, targets, radius, round)
    ensures forall k :: 0 <= k < |targets| ==> Covered(targets[k], commands, radius, round)
    ensures forall v :: v in places <==> IsPlace(v, targets, round)
    ensures exists seen :: OncePer(commands, seen, round)
  {
    hide KillReach, DropReach, Rounded, OncePer;
    commands, places := [], {};
    var seen: set<(string, Vec)> := {};
    NoneYet(round);
    for i := 0 to |targets|
      invariant forall c :: c in commands ==> c.KillKind? && Aimed(c, targets, radius, round)
      invariant OncePer(commands, seen, round)
      invariant forall k :: 0 <= k < i ==> Covered(targets[k], commands, radius, round)
      invariant forall key :: key in seen ==>
                  exists c :: c in commands && c.KillKind? && c.kind == key.0 && c.reach == KillReach(radius) &&
                    Rounded(c.at, round) == key.1
      invariant forall v :: v in places ==> IsPlace(v, targets, round)
      invariant forall k :: 0 <= k < i && targets[k].at.Some? ==> Rounded(targets[k].at.value, round) in places
    {
      var t := targets[i];
      if t.at.None? {
        continue;
      }
      var rounded := Rounded(t.at.value, round);
      places := places + {rounded};
      if (t.kind, rounded) in seen {
        continue;
      }
      var command := KillKind(t.kind, t.at.value, KillReach(radius));
      OneMoreKind(commands, seen, command, round);
      seen := seen + {(t.kind, rounded)};
      assert AimedAt(command, t, radius, round);
      ghost var before := commands;
      commands := commands + [command];
      assert command in commands && forall c :: c in before ==> c in commands;
    }
  }

  method DropCommands(targets: seq<Leftover>, radius: real, round: Rounder, places: set<Vec>)
    returns (commands: seq<KillCommand>)
    requires forall v :: v in places <==> IsPlace(v, targets, round)
    ensures forall c :: c in commands ==> Aimed(c, targets, radius, round)
    ensures forall k :: 0 <= k < |targets| && targets[k].at.Some? ==>
              KillItems(Rounded(targets[k].at.value, round), DropReach(radius)) in commands
    ensures forall i :: 0 <= i < |commands| ==> commands[i].KillItems?
    ensures forall i, j :: 0 <= i < j < |commands| ==> commands[i] != commands[j]
  {
    hide DropReach, Rounded;
    commands := [];
    var rest := places;
    while rest != {}
      invariant rest <= places
      invariant forall c :: c in commands ==> Aimed(c, targets, radius, round)
      invariant forall i :: 0 <= i < |commands| ==> commands[i].KillItems? && commands[i].at !in rest
      invariant forall i, j :: 0 <= i < j < |commands| ==> commands[i] != commands[j]
      invariant forall v :: v in places - rest ==> KillItems(v, DropReach(radius)) in commands
      decreases rest
    {
      var v :| v in rest;
      rest := rest - {v};
      assert IsPlace(v, targets, round);
      var k :| 0 <= k < |targets| && targets[k].at.Some? && v == Rounded(targets[k].at.value, round);
      assert AimedAt(KillItems(v, DropReach(radius)), targets[k], radius, round);
      commands := commands + [KillItems(v, DropReach(radius))];
    }
    forall k | 0 <= k < |targets| && targets[k].at.Some?
      ensures KillItems(Rounded(targets[k].at.value, round), DropReach(radius)) in commands
    {
      assert IsPlace(Rounded(targets[k].at.value, round), targets, round);
    }
  }

  lemma SmallSquare(d: real, b: real)
    requires -b <= d <= b
    ensures d * d <= b * b
  {
    if d >= 0.0 {
      assert d * d <= d * b <= b * b;
    } else {
      assert d * d == (-d) * (-d) <= (-d) * b <= b * b;
    }
  }

  /** Two rounding steps move a point by far less than the smallest reach. */
  lemma RoundingStaysWithin(a: Vec, at: Vec, b: Vec, round: Rounder, radius: real)
    requires RoundsToMillis(round) && at == Rounded(a, round) && Rounded(b, round) == Rounded(at, round)
    ensures Within(a, b, KillReach(radius))
  {
    SmallSquare(a.x - b.x, 0.0015);
    SmallSquare(a.y - b.y, 0.0015);
    SmallSquare(a.z - b.z, 0.0015);
    var reach := KillReach(radius);
    assert reach * reach >= 0.75 * 0.75;
  }

  /** Every colliding entity that has a position is hit by a clear command. */
  lemma ClearReaches(got: Record, commands: seq<KillCommand>, radius: real, round: Rounder)
    requires RoundsToMillis(round) && got.pos.Some?
    requires Covered(LeftoverOf(got, round), commands, radius, round)
    ensures exists c :: c in commands && Hits(c, Rendered(got.kind), got.pos.value)
  {
    var t := LeftoverOf(got, round);
    var c :| c in commands && c.KillKind? && c.kind == t.kind && c.reach == KillReach(radius) &&
      Rounded(c.at, round) == Rounded(t.at.value, round);
    RoundingStaysWithin(got.pos.value, t.at.value, c.at, round, radius);
    assert Hits(c, Rendered(got.kind), got.pos.value);
  }

  /** Whatever a clear command hits stands within reach of a leftover and has
      its type, or is a dropped item. */
  lemma ClearIsNarrow(command: KillCommand, targets: seq<Leftover>, radius: real, round: Rounder, kind: string, pos: Vec)
    requires Aimed(command, targets, radius, round) && Hits(command, kind, pos)
    ensures exists k :: 0 <= k < |targets| && targets[k].at.Some? &&
              (  (Within(pos, targets[k].at.value, KillReach(radius)) && (targets[k].kind == kind || targets[k].kind == ""))
              || (Within(pos, Rounded(targets[k].at.value, round), DropReach(radius)) && kind == ITEM))
  {
    hide Within, KillReach, DropReach, Rounded;
    var k :| 0 <= k < |targets| && AimedAt(command, targets[k], radius, round);
  }

  // ------------------------------------------------------------- the dimension

  /** The destination reports this dimension, blanks aside. */
  predicate IsIn(actual: Option<string>, wanted: string) {
    actual.Some? && Trim(actual.value) == Trim(wanted)
  }

  /** What the caller asked for, whatever was recorded; without a word from the
      caller what was recorded, if anything. */
  predicate InWantedDimension(expected: string, recorded: Option<string>, actual: Option<string>) {
    && (Trim(expected) != "" ==> IsIn(actual, expected))
    && (expected == "" && recorded.Some? && Trim(recorded.value) != "" ==> IsIn(actual, recorded.value))
  }

  /** An explicit expectation overrides the recorded dimension; a recording
      without one is not checked, a destination without one never passes. */
  function DimensionPasses(expected: string, recorded: Option<string>, actual: Option<string>): (ok: bool)
    ensures ok <==> InWantedDimension(expected, recorded, actual)
  {
    var wanted := Trim(if expected != "" then expected else if recorded.Some? then recorded.value else "");
    wanted == "" || wanted == Trim(if actual.Some? then actual.value else "")
  }

  /** An expectation of blanks alone turns the check off, also for a recording
      that names its dimension. */
  lemma BlankExpectationIsNotChecked(expected: string, recorded: Option<string>, actual: Option<string>)
    requires expected != "" && Trim(expected) == ""
    ensures DimensionPasses(expected, recorded, actual)
  {}
}
