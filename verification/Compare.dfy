/** The snapshot comparison of a guarded restore: what its verdict decides,
    strictly and leniently, for every pair of recordings. */
module Compare {
  import Blanks = Text
  import opened Snbt
  import opened Wrappers

  // ------------------------------------------------------------------ records

  /** A field of a JSON record: absent, a string, or something else with the
      text it renders to (empty when it is falsy). */
  datatype Text = Absent | Str(text: string) | Other(rendered: string)

  function Rendered(t: Text): string {
    match t
    case Absent => ""
    case Str(text) => text
    case Other(rendered) => rendered
  }

  datatype Vec = Vec(x: real, y: real, z: real)

  datatype Velocity = NoVelocity | BadVelocity | Vel(v: Vec)

  /** `pos` is empty when the field is missing or malformed; `nbt` is empty when
      it is not a string. */
  datatype Record = Record(uuid: Text, kind: Text, pos: Option<Vec>, vel: Velocity, nbt: string)

  /** Tolerances, opted-out keys, and the two library calls: key decoding and
      reading a motion out of the NBT text. */
  datatype Options = Options(posTolerance: real, velTolerance: real, ignored: set<string>, decode: Decoder,
                             motionOf: string -> Option<Vec>)

  function Uuid(r: Record): string {
    Rendered(r.uuid)
  }

  function Uuids(records: seq<Record>): (u: seq<string>)
    ensures |u| == |records|
  {
    seq(|records|, i requires 0 <= i < |records| => Uuid(records[i]))
  }

  function KindName(r: Record): string {
    if Rendered(r.kind) == "" then "(missing type)" else Rendered(r.kind)
  }

  function Motion(r: Record, o: Options): Option<Vec> {
    if r.vel.Vel? then Some(r.vel.v) else o.motionOf(r.nbt)
  }

  function DistanceSquared(a: Vec, b: Vec): real {
    (a.x - b.x) * (a.x - b.x) + (a.y - b.y) * (a.y - b.y) + (a.z - b.z) * (a.z - b.z)
  }

  /** Euclidean distance at most the tolerance, without the square root. */
  predicate Within(a: Vec, b: Vec, tolerance: real) {
    tolerance >= 0.0 && DistanceSquared(a, b) <= tolerance * tolerance
  }

  /** The distance of a point moved along one axis is how far it moved, and the
      three axes add up as the sides of a right angle do. */
  lemma DistanceIsEuclidean(a: Vec, b: Vec, d: real)
    ensures DistanceSquared(a, Vec(a.x + d, a.y, a.z)) == d * d
    ensures DistanceSquared(a, Vec(a.x, a.y + d, a.z)) == d * d
    ensures DistanceSquared(a, Vec(a.x, a.y, a.z + d)) == d * d
    ensures DistanceSquared(a, b) == DistanceSquared(b, a) ==
              DistanceSquared(a, Vec(b.x, a.y, a.z)) + DistanceSquared(a, Vec(a.x, b.y, a.z)) + DistanceSquared(a, Vec(a.x, a.y, b.z))
  {}

  /** Along an axis, within the tolerance means as far or less, either way. */
  lemma WithinIsHowFar(a: Vec, d: real, tolerance: real)
    requires tolerance >= 0.0
    ensures Within(a, Vec(a.x + d, a.y, a.z), tolerance) <==> -tolerance <= d <= tolerance
    ensures Within(Vec(a.x + d, a.y, a.z), a, tolerance) <==> -tolerance <= d <= tolerance
  {
    DistanceIsEuclidean(a, Vec(a.x + d, a.y, a.z), d);
    SquareOrder(if d < 0.0 then -d else d, tolerance);
  }

  lemma PositiveProduct(a: real, b: real)
    requires a > 0.0 && b > 0.0
    ensures a * b > 0.0
  {}

  lemma SquareOrder(d: real, t: real)
    requires d >= 0.0 && t >= 0.0
    ensures d * d <= t * t <==> d <= t
  {
    if d <= t {
      assert d * d <= d * t <= t * t;
    } else {
      PositiveProduct(d - t, d + t);
      assert (d - t) * (d + t) == d * d - t * t;
    }
  }

  predicate NonEmptyText(t: Text) {
    t.Str? && t.text != ""
  }

  predicate WellFormed(r: Record) {
    NonEmptyText(r.uuid) && NonEmptyText(r.kind) && r.pos.Some? && !r.vel.BadVelocity?
  }

  // ------------------------------------------------- one pair of records

  predicate KindOk(want: Record, got: Record) {
    Rendered(want.kind) == Rendered(got.kind)
  }

  predicate PositionOk(want: Record, got: Record, o: Options) {
    if want.pos.None? || got.pos.None? then want.pos.None? && got.pos.None?
    else Within(want.pos.value, got.pos.value, o.posTolerance)
  }

  /** Only a recorded velocity is required; an extra one is not a difference. */
  predicate VelocityOk(want: Record, got: Record, o: Options) {
    Motion(want, o).Some? ==>
      Motion(got, o).Some? && Within(Motion(want, o).value, Motion(got, o).value, o.velTolerance)
  }

  /** A velocity that was not recorded is not looked for; a recorded one must be
      there, and a position must be on both sides or on neither. */
  lemma WhatIsRequired(want: Record, got: Record, o: Options)
    ensures Motion(want, o).None? ==> VelocityOk(want, got, o)
    ensures Motion(want, o).Some? && Motion(got, o).None? ==> !VelocityOk(want, got, o)
    ensures want.pos.Some? != got.pos.Some? ==> !PositionOk(want, got, o)
    ensures want.vel.NoVelocity? && o.motionOf(want.nbt).None? ==> VelocityOk(want, got, o)
  {}

  /** A type that differs is a difference, and so is any text, if none is ignored. */
  lemma WhatDiffers(want: Record, got: Record, o: Options)
    ensures KindOk(want, got) <==> Rendered(want.kind) == Rendered(got.kind)
    ensures o.ignored == {} ==> (NbtOk(want, got, o) <==> want.nbt == got.nbt)
    ensures KindName(want) == KindName(got) ==>
              Rendered(want.kind) == Rendered(got.kind) || "(missing type)" in {Rendered(want.kind), Rendered(got.kind)}
  {}

  /** A record has its own state, and a readable recording of different identities
      is the same as itself. */
  lemma SameAsItself(r: Record, o: Options)
    requires o.posTolerance >= 0.0 && o.velTolerance >= 0.0
    ensures SameState(r, r, o)
  {
    hide StripTopLevelKeys;
  }

  lemma RecordingIsItself(expected: seq<Record>, o: Options)
    requires o.posTolerance >= 0.0 && o.velTolerance >= 0.0 && Sane(expected)
    ensures StrictlySame(expected, expected, o)
  {
    hide SameState;
    forall i | 0 <= i < |expected| ensures SameState(expected[i], expected[i], o) {
      SameAsItself(expected[i], o);
    }
  }

  /** Two velocities that differ along an axis agree up to the tolerance. */
  lemma VelocityIsMeasured(want: Record, got: Record, o: Options, v: Vec, d: real)
    requires o.velTolerance >= 0.0 && want.vel == Vel(v) && got.vel == Vel(Vec(v.x + d, v.y, v.z))
    ensures VelocityOk(want, got, o) <==> -o.velTolerance <= d <= o.velTolerance
  {
    WithinIsHowFar(v, d, o.velTolerance);
  }

  predicate NbtOk(want: Record, got: Record, o: Options) {
    StripTopLevelKeys(want.nbt, o.ignored, o.decode) == StripTopLevelKeys(got.nbt, o.ignored, o.decode)
  }

  function KindDiffers(): (Record, Record) -> bool {
    (w, g) => !KindOk(w, g)
  }

  function PositionDiffers(o: Options): (Record, Record) -> bool {
    (w, g) => !PositionOk(w, g, o)
  }

  function VelocityDiffers(o: Options): (Record, Record) -> bool {
    (w, g) => !VelocityOk(w, g, o)
  }

  function NbtDiffers(o: Options): (Record, Record) -> bool {
    (w, g) => !NbtOk(w, g, o)
  }

  predicate SameState(want: Record, got: Record, o: Options) {
    KindOk(want, got) && PositionOk(want, got, o) && VelocityOk(want, got, o) && NbtOk(want, got, o)
  }

  // ------------------------------------------------------ what is promised

  ghost predicate Distinct(u: seq<string>) {
    forall i, j :: 0 <= i < j < |u| ==> u[i] != u[j]
  }

  /** A recorded dimension is required, blanks aside; an empty one says nothing. */
  predicate DimensionOk(want: Option<string>, got: Option<string>) {
    want.Some? && Blanks.Trim(want.value) != "" ==> got.Some? && Blanks.Trim(got.value) == Blanks.Trim(want.value)
  }

  /** The name that a snapshot gives its dimension, if any. */
  function Named(dimension: Option<string>): Option<string> {
    if dimension.None? || Blanks.Trim(dimension.value) == "" then None else Some(Blanks.Trim(dimension.value))
  }

  /** The destination holds readable records with distinct identities. */
  ghost predicate Sane(actual: seq<Record>) {
    (forall i :: 0 <= i < |actual| ==> WellFormed(actual[i])) && Distinct(Uuids(actual))
  }

  /** The same recording: equal identities in the same order, equal state at
      every index, in a sane destination. */
  ghost predicate StrictlySame(expected: seq<Record>, actual: seq<Record>, o: Options) {
    && Sane(actual)
    && |expected| == |actual|
    && forall i :: 0 <= i < |actual| ==> Uuid(expected[i]) == Uuid(actual[i]) && SameState(expected[i], actual[i], o)
  }

  ghost predicate Embeds(m: seq<nat>, expected: seq<string>, actual: seq<string>) {
    && |m| == |expected|
    && (forall i :: 0 <= i < |m| ==> m[i] < |actual| && actual[m[i]] == expected[i])
    && forall i, j :: 0 <= i < j < |m| ==> m[i] < m[j]
  }

  /** The recording appears in a sane destination, in order, every recorded
      entity in its recorded state. */
  ghost predicate AppearsIn(expected: seq<Record>, actual: seq<Record>, o: Options) {
    && Sane(actual)
    && exists m :: Embeds(m, Uuids(expected), Uuids(actual)) &&
         forall i :: 0 <= i < |m| ==> SameState(expected[i], actual[m[i]], o)
  }

  // ---------------------------------------------------------- subsequences

  function Greedy(expected: seq<string>, actual: seq<string>): bool
    decreases |actual|
  {
    if expected == [] then true
    else if actual == [] then false
    else if actual[0] == expected[0] then Greedy(expected[1..], actual[1..])
    else Greedy(expected, actual[1..])
  }

  method Subsequence(expected: seq<string>, actual: seq<string>) returns (found: bool)
    ensures found <==> exists m :: Embeds(m, expected, actual)
  {
    var cursor := 0;
    for i := 0 to |actual|
      invariant cursor <= |expected|
      invariant Greedy(expected[cursor..], actual[i..]) == Greedy(expected, actual)
    {
      assert actual[i..][1..] == actual[i + 1..];
      if cursor < |expected| && actual[i] == expected[cursor] {
        assert expected[cursor..][1..] == expected[cursor + 1..];
        cursor := cursor + 1;
      }
    }
    GreedyDecides(expected, actual);
    found := cursor == |expected|;
  }

  /** Taking the first match every time finds an embedding whenever there is one. */
  lemma GreedyDecides(expected: seq<string>, actual: seq<string>)
    ensures Greedy(expected, actual) <==> exists m :: Embeds(m, expected, actual)
  {
    if Greedy(expected, actual) {
      var m := GreedyEmbeds(expected, actual);
    }
    if m :| Embeds(m, expected, actual) {
      EmbeddingIsFound(m, expected, actual);
    }
  }

  lemma {:induction false} GreedyEmbeds(expected: seq<string>, actual: seq<string>) returns (m: seq<nat>)
    requires Greedy(expected, actual)
    ensures Embeds(m, expected, actual)
    decreases |actual|
  {
    m := [];
    if expected != [] {
      var rest := GreedyEmbeds(if actual[0] == expected[0] then expected[1..] else expected, actual[1..]);
      var shifted := seq(|rest|, i requires 0 <= i < |rest| => rest[i] + 1);
      m := if actual[0] == expected[0] then [0] + shifted else shifted;
    }
  }

  function Shifted(m: seq<nat>): (s: seq<nat>)
    requires forall i :: 0 <= i < |m| ==> m[i] > 0
  {
    seq(|m|, i requires 0 <= i < |m| => m[i] - 1)
  }

  lemma ShiftedEmbeds(m: seq<nat>, expected: seq<string>, actual: seq<string>)
    requires Embeds(m, expected, actual) && actual != [] && forall i :: 0 <= i < |m| ==> m[i] > 0
    ensures Embeds(Shifted(m), expected, actual[1..])
  {}

  lemma TailEmbeds(m: seq<nat>, expected: seq<string>, actual: seq<string>)
    requires Embeds(m, expected, actual) && expected != []
    ensures Embeds(m[1..], expected[1..], actual) && forall i :: 0 <= i < |m[1..]| ==> m[1..][i] > 0
  {
    forall i | 0 <= i < |m[1..]| ensures m[1..][i] > 0 && actual[m[1..][i]] == expected[1..][i] {
      assert m[0] < m[i + 1];
    }
  }

  lemma {:induction false} EmbeddingIsFound(m: seq<nat>, expected: seq<string>, actual: seq<string>)
    requires Embeds(m, expected, actual)
    ensures Greedy(expected, actual)
    decreases |actual|
  {
    if expected != [] {
      assert m[0] < |actual|;
      if actual[0] == expected[0] {
        TailEmbeds(m, expected, actual);
        ShiftedEmbeds(m[1..], expected[1..], actual);
        EmbeddingIsFound(Shifted(m[1..]), expected[1..], actual[1..]);
      } else {
        assert m[0] > 0;
        ShiftedEmbeds(m, expected, actual);
        EmbeddingIsFound(Shifted(m), expected, actual[1..]);
      }
    }
  }

  // ------------------------------------------------------------- the report

  datatype Failures = Failures(order: bool, counts: bool, missing: bool, unexpected: bool, types: bool,
                               positions: bool, velocities: bool, nbt: bool, subsequence: bool, dimension: bool,
                               actualMalformed: bool)

  type View = map<string, Record>

  /** Each non-empty identity with its first record. */
  ghost predicate IsView(records: seq<Record>, view: View) {
    && (forall i :: 0 <= i < |records| && Uuid(records[i]) != "" ==> Uuid(records[i]) in view)
    && (forall u :: u in view ==> u != "" && FirstRecord(records, u, view[u]))
  }

  ghost predicate FirstRecord(records: seq<Record>, u: string, r: Record) {
    exists i :: 0 <= i < |records| && Uuid(records[i]) == u && r == records[i] &&
      forall j :: 0 <= j < i ==> Uuid(records[j]) != u
  }

  method ViewOf(records: seq<Record>) returns (view: View)
    ensures IsView(records, view)
  {
    view := map[];
    for k := 0 to |records|
      invariant forall i :: 0 <= i < k && Uuid(records[i]) != "" ==> Uuid(records[i]) in view
      invariant forall u :: u in view ==> u != "" && exists i :: 0 <= i < k && Uuid(records[i]) == u
      invariant forall u :: u in view ==> FirstRecord(records, u, view[u])
    {
      var uuid := Uuid(records[k]);
      if uuid == "" || uuid in view {
        continue;
      }
      view := view[uuid := records[k]];
      assert FirstRecord(records, uuid, records[k]);
    }
  }

  /** With distinct identities the view holds every record under its own. */
  lemma ViewOfDistinct(records: seq<Record>, view: View, i: nat)
    requires IsView(records, view) && Distinct(Uuids(records)) && i < |records| && Uuid(records[i]) != ""
    ensures Uuid(records[i]) in view && view[Uuid(records[i])] == records[i]
  {
    var u := Uuid(records[i]);
    var j :| 0 <= j < |records| && Uuid(records[j]) == u && view[u] == records[j];
    assert Uuids(records)[i] == u == Uuids(records)[j];
  }

  /** Unreadable records and repeated identities in the destination. */
  method Malformed(actual: seq<Record>) returns (bad: bool)
    ensures bad <==> !Sane(actual)
  {
    bad := false;
    var seen: set<string> := {};
    var uuids := Uuids(actual);
    for i := 0 to |actual|
      invariant bad <==> !((forall k :: 0 <= k < i ==> WellFormed(actual[k])) && Distinct(uuids[..i]))
      invariant forall u :: u in seen ==> u in uuids[..i]
      invariant !bad ==> forall u :: u in uuids[..i] ==> u in seen
    {
      var record := actual[i];
      assert uuids[..i + 1] == uuids[..i] + [uuids[i]];
      if !WellFormed(record) {
        bad := true;
      }
      if NonEmptyText(record.uuid) {
        if record.uuid.text in seen {
          var k :| 0 <= k < |uuids[..i]| && uuids[..i][k] == uuids[i];
          assert uuids[..i + 1][k] == uuids[..i + 1][i];
          bad := true;
        }
        seen := seen + {record.uuid.text};
      }
    }
    assert uuids[..|actual|] == uuids;
  }

  function Kinds(records: seq<Record>): seq<string> {
    seq(|records|, i requires 0 <= i < |records| => KindName(records[i]))
  }

  method CountKinds(records: seq<Record>) returns (counts: multiset<string>)
    ensures counts == multiset(Kinds(records))
  {
    counts := multiset{};
    for i := 0 to |records|
      invariant counts == multiset(Kinds(records)[..i])
    {
      assert Kinds(records)[..i + 1] == Kinds(records)[..i] + [KindName(records[i])];
      counts := counts + multiset{KindName(records[i])};
    }
    assert Kinds(records)[..|records|] == Kinds(records);
  }

  method AnyOutside(uuids: seq<string>, view: View) returns (found: bool)
    ensures found <==> exists i :: 0 <= i < |uuids| && uuids[i] !in view
  {
    found := false;
    for i := 0 to |uuids|
      invariant found <==> exists k :: 0 <= k < i && uuids[k] !in view
    {
      found := found || uuids[i] !in view;
    }
  }

  /** What the pairwise loop finds for one field. */
  ghost predicate SomePair(uuids: seq<string>, wants: View, gots: View, n: nat, bad: (Record, Record) -> bool) {
    exists i :: 0 <= i < n && i < |uuids| && uuids[i] in wants && uuids[i] in gots && bad(wants[uuids[i]], gots[uuids[i]])
  }

  method ComparePairs(uuids: seq<string>, wants: View, gots: View, o: Options)
    returns (types: bool, positions: bool, velocities: bool, nbt: bool)
    ensures types <==> SomePair(uuids, wants, gots, |uuids|, KindDiffers())
    ensures positions <==> SomePair(uuids, wants, gots, |uuids|, PositionDiffers(o))
    ensures velocities <==> SomePair(uuids, wants, gots, |uuids|, VelocityDiffers(o))
    ensures nbt <==> SomePair(uuids, wants, gots, |uuids|, NbtDiffers(o))
  {
    hide KindOk, PositionOk, VelocityOk, NbtOk;
    types, positions, velocities, nbt := false, false, false, false;
    for i := 0 to |uuids|
      invariant types <==> SomePair(uuids, wants, gots, i, KindDiffers())
      invariant positions <==> SomePair(uuids, wants, gots, i, PositionDiffers(o))
      invariant velocities <==> SomePair(uuids, wants, gots, i, VelocityDiffers(o))
      invariant nbt <==> SomePair(uuids, wants, gots, i, NbtDiffers(o))
    {
      if uuids[i] !in wants || uuids[i] !in gots {
        continue;
      }
      var want, got := wants[uuids[i]], gots[uuids[i]];
      types := types || !KindOk(want, got);
      positions := positions || !PositionOk(want, got, o);
      velocities := velocities || !VelocityOk(want, got, o);
      nbt := nbt || !NbtOk(want, got, o);
    }
  }

  ghost predicate AllPairsSame(uuids: seq<string>, wants: View, gots: View, o: Options) {
    forall i :: 0 <= i < |uuids| && uuids[i] in wants && uuids[i] in gots ==>
      SameState(wants[uuids[i]], gots[uuids[i]], o)
  }

  lemma SaneUuids(actual: seq<Record>, i: nat)
    requires Sane(actual) && i < |actual|
    ensures Uuid(actual[i]) != "" && Uuids(actual)[i] == Uuid(actual[i])
  {}

  /** In a sane destination, equal identity lists and no differing pair is the
      strict promise, and the other strict flags follow from it. */
  lemma StrictDecides(expected: seq<Record>, actual: seq<Record>, wants: View, gots: View, o: Options)
    requires IsView(expected, wants) && IsView(actual, gots) && Sane(actual)
    ensures Uuids(expected) == Uuids(actual) && AllPairsSame(Uuids(expected), wants, gots, o)
       <==> StrictlySame(expected, actual, o)
    ensures StrictlySame(expected, actual, o) ==>
              && Kinds(expected) == Kinds(actual)
              && (forall i :: 0 <= i < |expected| ==> Uuids(expected)[i] in gots)
              && (forall i :: 0 <= i < |actual| ==> Uuids(actual)[i] in wants)
              && (exists m :: Embeds(m, Uuids(expected), Uuids(actual)))
  {
    hide SameState, WellFormed, KindName, FirstRecord;
    var e, a := Uuids(expected), Uuids(actual);
    if e == a {
      forall i | 0 <= i < |a| ensures e[i] in wants && e[i] in gots && wants[e[i]] == expected[i] && gots[a[i]] == actual[i] {
        SaneUuids(actual, i);
        assert Uuid(expected[i]) == e[i];
        ViewOfDistinct(actual, gots, i);
        ViewOfDistinct(expected, wants, i);
      }
      if StrictlySame(expected, actual, o) {
        KindsFollow(expected, actual, o);
        assert Embeds(seq(|e|, i requires 0 <= i < |e| => i), e, a);
      }
    }
  }

  lemma KindsFollow(expected: seq<Record>, actual: seq<Record>, o: Options)
    requires StrictlySame(expected, actual, o)
    ensures Kinds(expected) == Kinds(actual)
  {
    forall i | 0 <= i < |actual| ensures KindName(expected[i]) == KindName(actual[i]) {
      assert SameState(expected[i], actual[i], o);
    }
  }

  /** An embedding sends distinct positions to distinct identities. */
  lemma EmbeddedDistinct(m: seq<nat>, expected: seq<string>, actual: seq<string>)
    requires Embeds(m, expected, actual) && Distinct(actual)
    ensures Distinct(expected)
  {
    forall i, j | 0 <= i < j < |expected| ensures expected[i] != expected[j] {
      assert m[i] < m[j];
    }
  }

  /** In a sane destination, an embedding of the identities with no differing
      pair and nothing missing is the lenient promise. */
  lemma LenientDecides(expected: seq<Record>, actual: seq<Record>, wants: View, gots: View, o: Options)
    requires IsView(expected, wants) && IsView(actual, gots) && Sane(actual)
    ensures (exists m :: Embeds(m, Uuids(expected), Uuids(actual))) && AllPairsSame(Uuids(expected), wants, gots, o)
       <==> AppearsIn(expected, actual, o)
    ensures AppearsIn(expected, actual, o) ==> forall i :: 0 <= i < |expected| ==> Uuids(expected)[i] in gots
  {
    hide SameState, WellFormed, FirstRecord;
    var e, a := Uuids(expected), Uuids(actual);
    forall m | Embeds(m, e, a)
      ensures forall i :: 0 <= i < |e| ==> e[i] in wants && e[i] in gots && wants[e[i]] == expected[i] && gots[e[i]] == actual[m[i]]
    {
      EmbeddedDistinct(m, e, a);
      forall i | 0 <= i < |e|
        ensures e[i] in wants && e[i] in gots && wants[e[i]] == expected[i] && gots[e[i]] == actual[m[i]]
      {
        SaneUuids(actual, m[i]);
        assert Uuid(expected[i]) == e[i];
        ViewOfDistinct(actual, gots, m[i]);
        ViewOfDistinct(expected, wants, i);
      }
    }
    if m :| Embeds(m, e, a) && AllPairsSame(e, wants, gots, o) {
      assert forall i :: 0 <= i < |m| ==> SameState(expected[i], actual[m[i]], o);
    }
    if AppearsIn(expected, actual, o) {
      var m :| Embeds(m, e, a) && forall i :: 0 <= i < |m| ==> SameState(expected[i], actual[m[i]], o);
    }
  }

  lemma PairFlags(uuids: seq<string>, wants: View, gots: View, o: Options)
    ensures AllPairsSame(uuids, wants, gots, o) <==>
              && !SomePair(uuids, wants, gots, |uuids|, KindDiffers())
              && !SomePair(uuids, wants, gots, |uuids|, PositionDiffers(o))
              && !SomePair(uuids, wants, gots, |uuids|, VelocityDiffers(o))
              && !SomePair(uuids, wants, gots, |uuids|, NbtDiffers(o))
  {}

  ghost predicate IsFirst(records: seq<Record>, i: nat) {
    i < |records| && Uuid(records[i]) != "" && forall j :: 0 <= j < i ==> Uuid(records[j]) != Uuid(records[i])
  }

  /** Two first records of one identity, one on each side, that differ so. */
  ghost predicate Differs(expected: seq<Record>, actual: seq<Record>, bad: (Record, Record) -> bool) {
    exists i: nat, j: nat ::
      IsFirst(expected, i) && IsFirst(actual, j) && Uuid(expected[i]) == Uuid(actual[j]) && bad(expected[i], actual[j])
  }

  lemma FirstInView(records: seq<Record>, view: View, i: nat)
    requires IsView(records, view) && IsFirst(records, i)
    ensures Uuid(records[i]) in view && view[Uuid(records[i])] == records[i]
  {
    var u := Uuid(records[i]);
    var k :| 0 <= k < |records| && Uuid(records[k]) == u && view[u] == records[k] &&
      forall j :: 0 <= j < k ==> Uuid(records[j]) != u;
  }

  lemma ViewIsFirst(records: seq<Record>, view: View, u: string) returns (i: nat)
    requires IsView(records, view) && u in view
    ensures IsFirst(records, i) && Uuid(records[i]) == u && view[u] == records[i]
  {
    i :| 0 <= i < |records| && Uuid(records[i]) == u && view[u] == records[i] &&
      forall j :: 0 <= j < i ==> Uuid(records[j]) != u;
  }

  /** The pairwise loop sees exactly the pairs of first records. */
  lemma PairsAreFirsts(expected: seq<Record>, actual: seq<Record>, wants: View, gots: View, bad: (Record, Record) -> bool)
    requires IsView(expected, wants) && IsView(actual, gots)
    ensures SomePair(Uuids(expected), wants, gots, |expected|, bad) <==> Differs(expected, actual, bad)
  {
    if SomePair(Uuids(expected), wants, gots, |expected|, bad) {
      var n :| 0 <= n < |expected| && Uuids(expected)[n] in wants && Uuids(expected)[n] in gots &&
        bad(wants[Uuids(expected)[n]], gots[Uuids(expected)[n]]);
      var i := ViewIsFirst(expected, wants, Uuids(expected)[n]);
      var j := ViewIsFirst(actual, gots, Uuids(expected)[n]);
    }
    if i: nat, j: nat :| IsFirst(expected, i) && IsFirst(actual, j) && Uuid(expected[i]) == Uuid(actual[j]) &&
                         bad(expected[i], actual[j]) {
      FirstInView(expected, wants, i);
      FirstInView(actual, gots, j);
      assert Uuids(expected)[i] == Uuid(expected[i]);
    }
  }

  /** A view holds exactly the non-empty identities. */
  lemma ViewKeys(records: seq<Record>, view: View, u: string)
    requires IsView(records, view)
    ensures u in view <==> u != "" && u in Uuids(records)
  {
    if u in view {
      var i := ViewIsFirst(records, view, u);
      assert Uuids(records)[i] == u;
    }
    if u != "" && u in Uuids(records) {
      var i :| 0 <= i < |records| && Uuids(records)[i] == u;
    }
  }

  /** The recording strictly repeated appears in order, too. */
  lemma StrictImpliesLenient(expected: seq<Record>, actual: seq<Record>, o: Options)
    requires StrictlySame(expected, actual, o)
    ensures AppearsIn(expected, actual, o)
  {
    hide SameState, WellFormed;
    var m := seq(|expected|, i requires 0 <= i < |expected| => i);
    assert Embeds(m, Uuids(expected), Uuids(actual));
    assert forall i :: 0 <= i < |m| ==> SameState(expected[i], actual[m[i]], o);
  }

  /** What the flags of a report mean, each on its own. */
  ghost predicate Reports(failures: Failures, expected: seq<Record>, actual: seq<Record>, strict: bool, o: Options) {
    && (failures.order <==> Uuids(expected) != Uuids(actual))
    && (failures.counts <==> multiset(Kinds(expected)) != multiset(Kinds(actual)))
    && (failures.missing <==> exists u :: u in Uuids(expected) && (u == "" || u !in Uuids(actual)))
    && (failures.unexpected <==> strict && exists u :: u in Uuids(actual) && (u == "" || u !in Uuids(expected)))
    && (failures.types <==> Differs(expected, actual, KindDiffers()))
    && (failures.positions <==> Differs(expected, actual, PositionDiffers(o)))
    && (failures.velocities <==> Differs(expected, actual, VelocityDiffers(o)))
    && (failures.nbt <==> Differs(expected, actual, NbtDiffers(o)))
    && (failures.subsequence <==> !exists m :: Embeds(m, Uuids(expected), Uuids(actual)))
    && (failures.actualMalformed <==> !Sane(actual))
  }

  /** How the flags decide: order, counts and extra entities matter only strictly. */
  predicate Passes(f: Failures, strict: bool) {
    && !f.missing && !f.types && !f.positions && !f.velocities && !f.nbt && !f.subsequence && !f.dimension
    && !f.actualMalformed
    && (strict ==> !f.order && !f.counts && !f.unexpected)
  }

  lemma SaneIsNeeded(expected: seq<Record>, actual: seq<Record>, o: Options)
    ensures StrictlySame(expected, actual, o) || AppearsIn(expected, actual, o) ==> Sane(actual)
  {}

  lemma OutsideIs(uuids: seq<string>, records: seq<Record>, view: View)
    requires IsView(records, view)
    ensures (exists i :: 0 <= i < |uuids| && uuids[i] !in view) <==> exists u :: u in uuids && (u == "" || u !in Uuids(records))
  {
    hide IsView, Uuids;
    forall u | u in uuids ensures u in view <==> u != "" && u in Uuids(records) {
      ViewKeys(records, view, u);
    }
    if i :| 0 <= i < |uuids| && uuids[i] !in view {
      assert uuids[i] in uuids;
    }
  }

  /** Compares a recording with a fresh snapshot. The strict verdict is exact
      sameness; the lenient one is ordered appearance. */
  method CompareSnapshots(wantDimension: Option<string>, expected: seq<Record>, gotDimension: Option<string>,
                          actual: seq<Record>, strict: bool, o: Options)
    returns (ok: bool, failures: Failures)
    ensures strict ==> (ok <==> StrictlySame(expected, actual, o) && DimensionOk(wantDimension, gotDimension))
    ensures !strict ==> (ok <==> AppearsIn(expected, actual, o) && DimensionOk(wantDimension, gotDimension))
    ensures Reports(failures, expected, actual, strict, o)
    ensures failures.dimension <==> !DimensionOk(wantDimension, gotDimension)
  {
    hide Differs, SomePair, Embeds, StrictlySame, AppearsIn, Sane, IsView, Uuids, Kinds,
         KindDiffers, PositionDiffers, VelocityDiffers, NbtDiffers, AllPairsSame;
    var expectedUuids, actualUuids := Uuids(expected), Uuids(actual);
    var wants := ViewOf(expected);
    var gots := ViewOf(actual);
    var malformed := Malformed(actual);
    var expectedCounts := CountKinds(expected);
    var actualCounts := CountKinds(actual);
    var missing := AnyOutside(expectedUuids, gots);
    var unexpected := AnyOutside(actualUuids, wants);
    var types, positions, velocities, nbt := ComparePairs(expectedUuids, wants, gots, o);
    var found := Subsequence(expectedUuids, actualUuids);
    failures := Failures(expectedUuids != actualUuids, expectedCounts != actualCounts, missing,
                         unexpected && strict, types, positions, velocities, nbt, !found,
                         Named(wantDimension).Some? && Named(gotDimension) != Named(wantDimension), malformed);
    SaneIsNeeded(expected, actual, o);
    OutsideIs(expectedUuids, actual, gots);
    OutsideIs(actualUuids, expected, wants);
    PairsAreFirsts(expected, actual, wants, gots, KindDiffers());
    PairsAreFirsts(expected, actual, wants, gots, PositionDiffers(o));
    PairsAreFirsts(expected, actual, wants, gots, VelocityDiffers(o));
    PairsAreFirsts(expected, actual, wants, gots, NbtDiffers(o));
    PairFlags(expectedUuids, wants, gots, o);
    if !malformed {
      StrictDecides(expected, actual, wants, gots, o);
      LenientDecides(expected, actual, wants, gots, o);
    }
    ok := Passes(failures, strict);
  }
}
