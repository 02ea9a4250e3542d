/** The daemon's bounded replay ring with its eviction tables, proved against
    the full event history. */
module EventRing {
  import opened Events

  const EVICTED_KEY_LIMIT: nat := 256

  /** Highest evicted sequence per key; an absent key reads as zero. */
  type Table = map<string, nat>

  function Lookup(t: Table, key: string): nat {
    if key in t then t[key] else 0
  }

  datatype Axis = ByCategory | ByTarget | ByPair

  /** The table key of an event, or "" when the event is not recorded. */
  function KeyOf(axis: Axis, e: Event): string {
    match axis
    case ByCategory => e.category
    case ByTarget => e.target
    case ByPair => if e.category == "" || e.target == "" then "" else PairKey(e.category, e.target)
  }

  function PairKey(category: string, target: string): string {
    category + "\0" + target
  }

  /** An event is recorded under every kind of key that it has all parts of. */
  lemma KeyWhenComplete(e: Event)
    ensures KeyOf(ByCategory, e) == "" <==> e.category == ""
    ensures KeyOf(ByTarget, e) == "" <==> e.target == ""
    ensures KeyOf(ByPair, e) == "" <==> e.category == "" || e.target == ""
  {}

  lemma FirstSeparator(c: string, t: string)
    requires '\0' !in c
    ensures PairKey(c, t)[|c|] == '\0' && forall i :: 0 <= i < |c| ==> PairKey(c, t)[i] != '\0'
  {
    assert forall i :: 0 <= i < |c| ==> PairKey(c, t)[i] == c[i];
  }

  lemma PairKeyInjective(c: string, t: string, c': string, t': string)
    requires '\0' !in c && '\0' !in c'
    requires PairKey(c, t) == PairKey(c', t')
    ensures c == c' && t == t'
  {
    var k := PairKey(c, t);
    FirstSeparator(c, t);
    FirstSeparator(c', t');
    assert k[..|c|] == c && k[..|c'|] == c';
    assert t == k[|c| + 1..] && t' == k[|c'| + 1..];
  }

  /** The last of the first `n` events with this key, as a sequence; 0 if none. */
  ghost function LastWith(axis: Axis, h: seq<Event>, n: nat, key: string): nat
    requires n <= |h|
  {
    if n == 0 then 0
    else if KeyOf(axis, h[n - 1]) == key then n
    else LastWith(axis, h, n - 1, key)
  }

  lemma {:induction false} LastWithBeyond(axis: Axis, h: seq<Event>, n: nat, key: string, since: nat)
    requires n <= |h|
    ensures LastWith(axis, h, n, key) <= n
    ensures LastWith(axis, h, n, key) > since <==> exists i :: since <= i < n && KeyOf(axis, h[i]) == key
  {
    hide KeyOf;
    if n > 0 {
      LastWithBeyond(axis, h, n - 1, key, since);
      if n > since && KeyOf(axis, h[n - 1]) == key {
        assert exists i :: since <= i < n && KeyOf(axis, h[i]) == key;
      }
    }
  }

  ghost function Keys(axis: Axis, h: seq<Event>, n: nat): set<string>
    requires n <= |h|
  {
    if n == 0 then {}
    else Keys(axis, h, n - 1) + if KeyOf(axis, h[n - 1]) == "" then {} else {KeyOf(axis, h[n - 1])}
  }

  lemma {:induction false} KeysHaveLast(axis: Axis, h: seq<Event>, n: nat, key: string)
    requires n <= |h|
    ensures LastWith(axis, h, n, key) <= n
    ensures key in Keys(axis, h, n) <==> key != "" && LastWith(axis, h, n, key) > 0
  {
    if n > 0 {
      KeysHaveLast(axis, h, n - 1, key);
    }
  }

  /** Every recorded value is the last eviction of its key. */
  ghost predicate Sound(axis: Axis, t: Table, h: seq<Event>, n: nat)
    requires n <= |h|
  {
    forall k :: k in t ==> k != "" && 0 < t[k] == LastWith(axis, h, n, k)
  }

  /** No eviction is forgotten either. */
  ghost predicate Exact(axis: Axis, t: Table, h: seq<Event>, n: nat)
    requires n <= |h|
  {
    Sound(axis, t, h, n) && t.Keys == Keys(axis, h, n)
  }

  lemma ExactLookup(axis: Axis, t: Table, h: seq<Event>, n: nat, key: string)
    requires n <= |h| && key != ""
    requires Exact(axis, t, h, n)
    ensures Lookup(t, key) == LastWith(axis, h, n, key)
  {
    KeysHaveLast(axis, h, n, key);
  }

  // ------------------------------------------------ one table update

  predicate IsOldest(t: Table, key: string) {
    key in t && forall k :: k in t ==> t[key] <= t[k]
  }

  /** The outcome of one update: a newer value is stored, and a full table
      first loses its oldest key, even when the stored key was present. */
  ghost predicate Remembers(t: Table, key: string, sequence: nat, t': Table) {
    if sequence <= Lookup(t, key) then t' == t
    else if |t| < EVICTED_KEY_LIMIT then t' == t[key := sequence]
    else exists oldest :: IsOldest(t, oldest) &&
           t' == if t[oldest] >= sequence then t else (t - {oldest})[key := sequence]
  }

  method RememberEvicted(table: Table, key: string, sequence: nat) returns (updated: Table)
    ensures Remembers(table, key, sequence, updated)
  {
    updated := table;
    if sequence <= Lookup(table, key) {
      return;
    }
    if |table| >= EVICTED_KEY_LIMIT {
      var oldestKey :| oldestKey in table;
      var candidates := table.Keys - {oldestKey};
      while candidates != {}
        invariant candidates <= table.Keys && oldestKey in table
        invariant forall k :: k in table && k !in candidates ==> table[oldestKey] <= table[k]
        decreases candidates
      {
        var candidate :| candidate in candidates;
        candidates := candidates - {candidate};
        if table[candidate] < table[oldestKey] {
          oldestKey := candidate;
        }
      }
      assert IsOldest(table, oldestKey);
      if table[oldestKey] >= sequence {
        return;
      }
      updated := updated - {oldestKey};
    }
    updated := updated[key := sequence];
  }

  /** When the new sequence exceeds every recorded one, the update stores it,
      keeps the other values, and loses at most the oldest key. */
  ghost predicate Replaces(t: Table, key: string, sequence: nat, t': Table) {
    && key in t' && t'[key] == sequence
    && (forall k :: k in t' && k != key ==> k in t && t'[k] == t[k])
    && (forall k :: k in t && k !in t' ==> |t| >= EVICTED_KEY_LIMIT && IsOldest(t, k))
    && (|t| >= EVICTED_KEY_LIMIT ==> exists k :: IsOldest(t, k) && (k == key || k !in t'))
  }

  lemma RemembersReplaces(t: Table, key: string, sequence: nat, t': Table)
    requires sequence > 0 && forall k :: k in t ==> t[k] < sequence
    requires Remembers(t, key, sequence, t')
    ensures Replaces(t, key, sequence, t')
  {
    if |t| >= EVICTED_KEY_LIMIT {
      var oldest :| IsOldest(t, oldest) && t' == if t[oldest] >= sequence then t else (t - {oldest})[key := sequence];
      assert oldest == key || oldest !in t';
    }
  }

  /** An update with the next evicted event keeps every recorded value true,
      whatever the table had forgotten. */
  lemma RemembersSound(axis: Axis, t: Table, h: seq<Event>, n: nat, t': Table)
    requires n < |h| && KeyOf(axis, h[n]) != ""
    requires Sound(axis, t, h, n)
    requires Remembers(t, KeyOf(axis, h[n]), n + 1, t')
    ensures Sound(axis, t', h, n + 1)
    ensures Replaces(t, KeyOf(axis, h[n]), n + 1, t')
  {
    hide KeyOf, Remembers, IsOldest, Keys;
    forall k | k in t ensures t[k] <= n {
      KeysHaveLast(axis, h, n, k);
    }
    RemembersReplaces(t, KeyOf(axis, h[n]), n + 1, t');
  }

  /** Values are the positions of their keys, so the oldest key is unique. */
  lemma OldestIsUnique(axis: Axis, t: Table, h: seq<Event>, n: nat, a: string, b: string)
    requires n <= |h| && Sound(axis, t, h, n)
    requires IsOldest(t, a) && IsOldest(t, b)
    ensures a == b
  {
    LastOwner(axis, h, n, a);
    LastOwner(axis, h, n, b);
  }

  lemma KeysSnoc(axis: Axis, h: seq<Event>, n: nat)
    requires n < |h| && KeyOf(axis, h[n]) != ""
    ensures Keys(axis, h, n + 1) == Keys(axis, h, n) + {KeyOf(axis, h[n])}
  {}

  /** With a free slot, or its own slot freed, only the updated key is added. */
  lemma RemembersAll(axis: Axis, t: Table, h: seq<Event>, n: nat, key: string, t': Table)
    requires n <= |h| && Sound(axis, t, h, n) && Replaces(t, key, n + 1, t')
    requires |t| < EVICTED_KEY_LIMIT || IsOldest(t, key)
    ensures t'.Keys == t.Keys + {key}
  {
    hide IsOldest, Sound;
    forall k | k in t ensures k in t' {
      if k !in t' {
        OldestIsUnique(axis, t, h, n, key, k);
      }
    }
  }

  /** Otherwise the oldest key is another one, and it is lost. */
  lemma RemembersLess(t: Table, key: string, sequence: nat, t': Table)
    requires Replaces(t, key, sequence, t')
    requires |t| >= EVICTED_KEY_LIMIT && !IsOldest(t, key)
    ensures !(t.Keys <= t'.Keys)
  {
    var oldest :| IsOldest(t, oldest) && (oldest == key || oldest !in t');
    assert oldest in t.Keys;
  }

  /** Starting exact, one update stays exact if and only if the table has a
      free slot or the slot it frees is the updated key's own. */
  lemma RemembersExactly(axis: Axis, t: Table, h: seq<Event>, n: nat, t': Table)
    requires n < |h| && KeyOf(axis, h[n]) != ""
    requires Exact(axis, t, h, n)
    requires Remembers(t, KeyOf(axis, h[n]), n + 1, t')
    ensures Exact(axis, t', h, n + 1)
       <==> |t| < EVICTED_KEY_LIMIT || IsOldest(t, KeyOf(axis, h[n]))
  {
    hide KeyOf, Keys, LastWith, Remembers, Sound, IsOldest, Replaces;
    RemembersSound(axis, t, h, n, t');
    KeysSnoc(axis, h, n);
    if |t| < EVICTED_KEY_LIMIT || IsOldest(t, KeyOf(axis, h[n])) {
      RemembersAll(axis, t, h, n, KeyOf(axis, h[n]), t');
    } else {
      RemembersLess(t, KeyOf(axis, h[n]), n + 1, t');
    }
  }

  lemma {:induction false} LastOwner(axis: Axis, h: seq<Event>, n: nat, key: string)
    requires n <= |h|
    requires LastWith(axis, h, n, key) > 0
    ensures var i := LastWith(axis, h, n, key); i <= n && KeyOf(axis, h[i - 1]) == key
  {
    if KeyOf(axis, h[n - 1]) != key {
      LastOwner(axis, h, n - 1, key);
    }
  }

  lemma OldestIsLost(axis: Axis, t: Table, h: seq<Event>, n: nat, key: string, t': Table, first: string)
    requires n <= |h| && Sound(axis, t, h, n) && Replaces(t, key, n + 1, t')
    requires |t| >= EVICTED_KEY_LIMIT && IsOldest(t, first) && key != first
    ensures first !in t'
  {
    hide Sound, IsOldest;
    var oldest :| IsOldest(t, oldest) && (oldest == key || oldest !in t');
    OldestIsUnique(axis, t, h, n, oldest, first);
  }

  /** With 256 keys recorded, evicting a newer one of them again makes the table
      forget the oldest: its followers are then told that nothing was dropped
      although their event is gone. */
  lemma FullTableForgets(axis: Axis, t: Table, h: seq<Event>, n: nat, t': Table, first: string)
    requires n < |h| && KeyOf(axis, h[n]) in t && KeyOf(axis, h[n]) != first
    requires Exact(axis, t, h, n) && |t| == 256 && IsOldest(t, first)
    requires Remembers(t, KeyOf(axis, h[n]), n + 1, t')
    ensures Lookup(t', first) == 0 < LastWith(axis, h, n + 1, first)
  {
    assert Sound(axis, t, h, n) && first in t;
    assert LastWith(axis, h, n + 1, first) == LastWith(axis, h, n, first) == t[first] > 0;
    hide KeyOf, Remembers, Keys, IsOldest, LastWith, Replaces, Sound;
    RemembersSound(axis, t, h, n, t');
    OldestIsLost(axis, t, h, n, KeyOf(axis, h[n]), t', first);
  }

  lemma KeysGrow(axis: Axis, h: seq<Event>, n: nat)
    requires n < |h|
    ensures Keys(axis, h, n) <= Keys(axis, h, n + 1)
    ensures |Keys(axis, h, n)| <= |Keys(axis, h, n + 1)|
  {
    SubsetCount(Keys(axis, h, n), Keys(axis, h, n + 1));
  }

  lemma SubsetCount(a: set<string>, b: set<string>)
    requires a <= b
    ensures |a| <= |b|
  {
    assert b == a + (b - a);
  }

  /** Fewer than 256 distinct keys were evicted so far. */
  ghost predicate FewKeys(axis: Axis, h: seq<Event>, n: nat)
    requires n <= |h|
  {
    |Keys(axis, h, n)| < 256
  }

  /** What a table guarantees: recorded values are always true, and none is
      missing while fewer than 256 keys were ever evicted. */
  ghost predicate Keeps(axis: Axis, t: Table, h: seq<Event>, n: nat)
    requires n <= |h|
  {
    Sound(axis, t, h, n) && (FewKeys(axis, h, n) ==> Exact(axis, t, h, n))
  }

  /** One table before and after recording the `n`-th event. */
  ghost predicate Recorded(axis: Axis, h: seq<Event>, n: nat, t: Table, t': Table)
    requires 0 < n <= |h|
  {
    var key := KeyOf(axis, h[n - 1]);
    if key == "" then t' == t else Remembers(t, key, h[n - 1].number, t')
  }

  lemma KeepsStep(axis: Axis, t: Table, h: seq<Event>, n: nat, t': Table)
    requires n < |h| && h[n].number == n + 1
    requires Keeps(axis, t, h, n)
    requires Recorded(axis, h, n + 1, t, t')
    ensures Keeps(axis, t', h, n + 1)
  {
    hide KeyOf, Remembers, Keys, Sound, Exact;
    KeysGrow(axis, h, n);
    if KeyOf(axis, h[n]) == "" {
      KeepsQuietly(axis, t, h, n);
    } else {
      RemembersSound(axis, t, h, n, t');
      if FewKeys(axis, h, n + 1) {
        assert |t| < 256 by {
          ExactIsSmall(axis, t, h, n);
        }
        RemembersExactly(axis, t, h, n, t');
      }
    }
  }

  lemma ExactIsSmall(axis: Axis, t: Table, h: seq<Event>, n: nat)
    requires n <= |h| && Exact(axis, t, h, n) && FewKeys(axis, h, n)
    ensures |t| < 256
  {
    assert |t| == |t.Keys|;
  }

  /** An event without a key leaves a table as good as it was. */
  lemma KeepsQuietly(axis: Axis, t: Table, h: seq<Event>, n: nat)
    requires n < |h| && Keeps(axis, t, h, n) && KeyOf(axis, h[n]) == ""
    ensures Keeps(axis, t, h, n + 1)
  {
    hide KeyOf;
    KeysGrow(axis, h, n);
    forall k | k in t ensures LastWith(axis, h, n + 1, k) == t[k] {}
  }

  /** `t` results from recording the first `n` events one after the other. */
  ghost predicate Recording(axis: Axis, h: seq<Event>, n: nat, t: Table)
    requires n <= |h|
  {
    if n == 0 then t == map[]
    else exists t0 :: Recorded(axis, h, n, t0, t) && Recording(axis, h, n - 1, t0)
  }

  lemma {:induction false} RecordingAppend(axis: Axis, h: seq<Event>, e: Event, n: nat, t: Table)
    requires n <= |h|
    requires Recording(axis, h, n, t)
    ensures Recording(axis, h + [e], n, t)
  {
    if n > 0 {
      var t0 :| Recorded(axis, h, n, t0, t) && Recording(axis, h, n - 1, t0);
      RecordingAppend(axis, h, e, n - 1, t0);
      assert Recorded(axis, h + [e], n, t0, t);
    }
  }

  lemma KeepsNothing(axis: Axis, h: seq<Event>)
    ensures Keeps(axis, map[], h, 0)
  {}

  lemma {:induction false} RecordingKeeps(axis: Axis, h: seq<Event>, n: nat, t: Table)
    requires n <= |h| && Numbered(h)
    requires Recording(axis, h, n, t)
    ensures Keeps(axis, t, h, n)
  {
    hide Keeps, Recorded, KeyOf;
    if n == 0 {
      KeepsNothing(axis, h);
    } else {
      var t0 :| Recorded(axis, h, n, t0, t) && Recording(axis, h, n - 1, t0);
      RecordingKeeps(axis, h, n - 1, t0);
      KeepsStep(axis, t0, h, n - 1, t);
    }
  }

  /** Records an evicted event in the table of one axis, unless it has no key there. */
  method RecordIn(axis: Axis, table: Table, ghost h: seq<Event>, event: Event) returns (updated: Table)
    requires 0 < event.number <= |h| && h[event.number - 1] == event
    requires Recording(axis, h, event.number - 1, table)
    ensures Recording(axis, h, event.number, updated)
  {
    updated := table;
    if KeyOf(axis, event) != "" {
      updated := RememberEvicted(table, KeyOf(axis, event), event.number);
    }
    assert Recorded(axis, h, event.number, table, updated);
  }

  // ------------------------------------------------------------- filters

  /** Whether the table consulted for this filter is guaranteed complete. The
      category table always is: there are only seven categories. */
  ghost predicate TableComplete(f: Filter, h: seq<Event>, n: nat)
    requires n <= |h|
  {
    f.target != "" ==> FewKeys(if f.category == "" then ByTarget else ByPair, h, n)
  }

  lemma CategoriesAreFew(h: seq<Event>, n: nat)
    requires n <= |h| && Categorized(h)
    ensures FewKeys(ByCategory, h, n)
  {
    KeysAreCategories(h, n);
    SubsetCount(Keys(ByCategory, h, n), CATEGORIES);
  }

  lemma {:induction false} KeysAreCategories(h: seq<Event>, n: nat)
    requires n <= |h| && Categorized(h)
    ensures Keys(ByCategory, h, n) <= CATEGORIES
  {
    if n > 0 {
      assert h[n - 1] in h;
      KeysAreCategories(h, n - 1);
    }
  }

  /** A pair key can be read back only if the category holds no separator. */
  predicate Unambiguous(f: Filter) {
    f.target == "" || '\0' !in f.category
  }

  /** A filter whose category holds the separator shares its key with events
      that it does not match, so it can be told of a drop that concerns others. */
  lemma AmbiguousFilter(target: string)
    ensures var f, e := Filter("chat\0" + target, "x"), Event(1, "chat", target + "\0x");
            !Unambiguous(f) && !Matches(f, e) && KeyOf(ByPair, Event(0, f.category, f.target)) == KeyOf(ByPair, e)
  {
    var category := "chat\0" + target;
    assert category[4] == '\0' && category != "chat";
    assert category + "\0" + "x" == "chat" + "\0" + (target + "\0x");
  }

  /** A table value beyond the cursor means exactly that a matching event after
      the cursor was evicted. The pair key is unambiguous because no category
      contains the separator. */
  lemma TableDecides(axis: Axis, f: Filter, t: Table, h: seq<Event>, n: nat, eff: nat)
    requires n <= |h| && Numbered(h) && Categorized(h)
    requires Recording(axis, h, n, t)
    requires Unambiguous(f)
    requires match axis
             case ByCategory => f.category != "" && f.target == ""
             case ByTarget => f.category == "" && f.target != ""
             case ByPair => f.category != "" && f.target != ""
    ensures var key := KeyOf(axis, Event(0, f.category, f.target));
            && (Lookup(t, key) > eff ==> SomeMatch(h, f, eff, n))
            && (TableComplete(f, h, n) ==> (Lookup(t, key) > eff <==> SomeMatch(h, f, eff, n)))
  {
    hide Known;
    var key := KeyOf(axis, Event(0, f.category, f.target));
    RecordingKeeps(axis, h, n, t);
    LastWithBeyond(axis, h, n, key, eff);
    CategoriesAreFew(h, n);
    forall i | 0 <= i < n ensures KeyOf(axis, h[i]) == key <==> Matches(f, h[i]) {
      assert h[i] in h;
      KnownCategoriesAreTrimmed(h[i].category);
      KnownCategoriesHaveNoNul(h[i].category);
      if axis == ByPair && KeyOf(axis, h[i]) == key {
        PairKeyInjective(h[i].category, h[i].target, f.category, f.target);
      }
    }
    if TableComplete(f, h, n) {
      ExactLookup(axis, t, h, n, key);
    }
  }

  /** The ring's events that pass the filter and lie after a positive cursor. */
  method FilterRing(ghost h: seq<Event>, ghost gone: nat, ring: seq<Event>, f: Filter, since: nat)
    returns (events: seq<Event>)
    requires gone <= |h| && Numbered(h) && ring == h[gone..]
    ensures events == Select(h, Replay(f), Max(gone, since), |h|)
  {
    events := [];
    for j := 0 to |ring|
      invariant events == Select(h, Replay(f), Max(gone, since), gone + j)
    {
      SelectSnoc(h, Replay(f), Max(gone, since), gone + j);
      var event := ring[j];
      if f.category != "" && event.category != f.category {
        continue;
      }
      if f.target != "" && event.target != f.target {
        continue;
      }
      if since > 0 && event.number <= since {
        continue;
      }
      events := events + [event];
    }
  }

  /** Always the oldest events after the cursor, so `next` can be continued from. */
  method MakePage(found: seq<Event>, lastSeq: nat, limit: int, dropped: bool, reset: bool) returns (page: Page)
    ensures page == CutPage(found, lastSeq, limit, dropped, reset)
    ensures page.events <= found && |page.events| == if 0 < limit < |found| then limit else |found|
    ensures page.truncated <==> |page.events| < |found|
  {
    var events, truncated := found, false;
    if limit > 0 && |events| > limit {
      events := events[..limit];
      truncated := true;
    }
    var next := lastSeq;
    if |events| > 0 {
      next := events[|events| - 1].number;
    }
    page := Page(events, next, dropped, truncated, reset, lastSeq);
  }

  lemma Extended(h: seq<Event>, e: Event, k: nat)
    requires Numbered(h) && Categorized(h) && k <= |h|
    requires e.number == |h| + 1 && Known(e.category)
    ensures Numbered(h + [e]) && Categorized(h + [e])
    ensures (h + [e])[k..] == h[k..] + [e]
  {
    hide Known;
  }

  // ---------------------------------------------------------------- the ring

  /** What a page holds, said of the history and its last `held` events alone: of
      those, in order, the matching ones past the cursor, up to where it was cut. */
  ghost predicate Holds(h: seq<Event>, held: nat, f: Filter, since: int, page: Page) {
    && page.lastSeq == |h| && Ascending(page.events)
    && (forall e :: e in page.events ==> Asked(h, held, f, since, page.reset, e.number - 1) && h[e.number - 1] == e)
    && (forall i :: Asked(h, held, f, since, page.reset, i) && (!page.truncated || i < page.next) ==> h[i] in page.events)
    && page.next == if page.events == [] then |h| else page.events[|page.events| - 1].number
  }

  /** The ring still holds the event, it passes the filter, and the cursor does
      not say it was seen. */
  predicate Asked(h: seq<Event>, held: nat, f: Filter, since: int, reset: bool, i: int) {
    && 0 <= i < |h| && |h| - held <= i && (reset || since <= i)
    && (f.category == "" || h[i].category == f.category) && (f.target == "" || h[i].target == f.target)
  }

  lemma AskedIsWanted(h: seq<Event>, bufferSize: nat, f: Filter, since: int, stale: bool, i: nat)
    requires i < |h|
    ensures Asked(h, bufferSize, f, since, Resets(since, stale, |h|), i) <==>
              Max(Evicted(|h|, bufferSize), EffectiveCursor(since, stale, |h|)) <= i && Wants(Replay(f), h[i])
  {}

  lemma PageHolds(h: seq<Event>, bufferSize: nat, f: Filter, since: int, limit: int, stale: bool, dropped: bool)
    requires Numbered(h)
    ensures Holds(h, bufferSize, f, since, PageWith(h, |h|, bufferSize, f, since, limit, stale, dropped))
  {
    var page := PageWith(h, |h|, bufferSize, f, since, limit, stale, dropped);
    var lo := Max(Evicted(|h|, bufferSize), EffectiveCursor(since, stale, |h|));
    PageResolves(h, |h|, bufferSize, f, since, limit, stale, dropped);
    hide Select, Asked, Evicted, EffectiveCursor, Resets, CutPage, Numbered;
    SelectionHolds(h, bufferSize, f, since, stale, lo, Upto(page));
    hide PageWith;
  }

  /** The matching events of the ring past the cursor, up to some place. */
  lemma SelectionHolds(h: seq<Event>, bufferSize: nat, f: Filter, since: int, stale: bool, lo: nat, upto: nat)
    requires Numbered(h) && upto <= |h| && lo == Max(Evicted(|h|, bufferSize), EffectiveCursor(since, stale, |h|))
    ensures var (events, reset) := (Select(h, Replay(f), lo, upto), Resets(since, stale, |h|));
            && Ascending(events)
            && (forall e :: e in events ==> Asked(h, bufferSize, f, since, reset, e.number - 1) && h[e.number - 1] == e)
            && forall i :: Asked(h, bufferSize, f, since, reset, i) && i < upto ==> h[i] in events
  {
    var q, reset := Replay(f), Resets(since, stale, |h|);
    hide Select, Asked, Wants, Evicted, EffectiveCursor, Resets;
    SelectAscends(h, q, lo, upto);
    forall e | e in Select(h, q, lo, upto) ensures Asked(h, bufferSize, f, since, reset, e.number - 1) && h[e.number - 1] == e {
      SelectedIsWanted(h, q, lo, upto, e);
      AskedIsWanted(h, bufferSize, f, since, stale, e.number - 1);
    }
    forall i | Asked(h, bufferSize, f, since, reset, i) && i < upto ensures h[i] in Select(h, q, lo, upto) {
      AskedInRange(h, bufferSize, f, since, reset, i);
      AskedIsWanted(h, bufferSize, f, since, stale, i);
      WantedIsSelected(h, q, lo, upto, i);
    }
  }

  lemma PageMeans(h: seq<Event>, bufferSize: nat, f: Filter, since: int, limit: int, stale: bool, page: Page)
    requires Numbered(h) && page == PageWith(h, |h|, bufferSize, f, since, limit, stale, page.dropped)
    ensures Holds(h, bufferSize, f, since, page) && Fills(h, f, limit, page)
  {
    hide Holds, Fills, PageWith, Numbered;
    PageHolds(h, bufferSize, f, since, limit, stale, page.dropped);
    PageFills(h, |h|, bufferSize, f, since, limit, stale, page.dropped);
  }

  lemma AskedInRange(h: seq<Event>, held: nat, f: Filter, since: int, reset: bool, i: int)
    requires Asked(h, held, f, since, reset, i)
    ensures 0 <= i < |h|
  {}

  class EventRing {
    const bufferSize: nat
    const streamID: string
    var eventSeq: nat
    var eventRing: seq<Event>
    var evictedThrough: nat
    var evictedCategory: Table
    var evictedTarget: Table
    var evictedPair: Table
    /** Every event ever ingested by this daemon process. */
    ghost var history: seq<Event>

    ghost predicate Valid()
      reads this
    {
      && bufferSize > 0
      && |history| == eventSeq && Numbered(history) && Categorized(history)
      && eventRing == history[Evicted(eventSeq, bufferSize)..]
      && evictedThrough == Evicted(eventSeq, bufferSize) && TablesHold()
    }

    /** The tables are what recording the first `evictedThrough` events made them. */
    ghost predicate TablesHold()
      reads this
    {
      && evictedThrough <= |history|
      && Recording(ByCategory, history, evictedThrough, evictedCategory)
      && Recording(ByTarget, history, evictedThrough, evictedTarget)
      && Recording(ByPair, history, evictedThrough, evictedPair)
    }

    constructor (bufferSize: int, streamID: string)
      ensures Valid() && history == [] && this.streamID == streamID
      ensures this.bufferSize == if bufferSize <= 0 then 1000 else bufferSize
    {
      this.bufferSize := if bufferSize <= 0 then 1000 else bufferSize;
      this.streamID := streamID;
      eventSeq, eventRing, evictedThrough := 0, [], 0;
      evictedCategory, evictedTarget, evictedPair := map[], map[], map[];
      history := [];
    }

    method RecordEviction(event: Event)
      requires evictedThrough < |history| && event == history[evictedThrough]
      requires Numbered(history) && TablesHold()
      modifies `evictedThrough, `evictedCategory, `evictedTarget, `evictedPair
      ensures evictedThrough == old(evictedThrough) + 1 && TablesHold()
    {
      evictedCategory := RecordIn(ByCategory, evictedCategory, history, event);
      evictedTarget := RecordIn(ByTarget, evictedTarget, history, event);
      evictedPair := RecordIn(ByPair, evictedPair, history, event);
      if event.number > evictedThrough {
        evictedThrough := event.number;
      }
    }

    /** Assigns the next sequence, appends, evicts; `event` is what the same
        critical section then broadcasts. */
    method Ingest(target: string, eventType: string) returns (event: Event)
      requires Valid()
      modifies this
      ensures Valid()
      ensures event == Event(|old(history)| + 1, Categorize(eventType), target)
      ensures history == old(history) + [event]
    {
      eventSeq := eventSeq + 1;
      event := Event(eventSeq, Categorize(eventType), target);
      ghost var gone := Evicted(|history|, bufferSize);
      RecordingAppend(ByCategory, history, event, gone, evictedCategory);
      RecordingAppend(ByTarget, history, event, gone, evictedTarget);
      RecordingAppend(ByPair, history, event, gone, evictedPair);
      Extended(history, event, gone);
      history := history + [event];
      eventRing := eventRing + [event];
      EvictOverflow();
    }

    method EvictOverflow()
      requires bufferSize > 0 && |history| == eventSeq && Numbered(history) && Categorized(history)
      requires TablesHold() && evictedThrough <= Evicted(eventSeq, bufferSize) && eventRing == history[evictedThrough..]
      modifies `eventRing, `evictedThrough, `evictedCategory, `evictedTarget, `evictedPair
      ensures Valid()
    {
      hide Numbered, Categorized, Recording;
      if |eventRing| > bufferSize {
        var overflow := |eventRing| - bufferSize;
        for i := 0 to overflow
          invariant TablesHold() && evictedThrough == old(evictedThrough) + i
          invariant eventRing == history[old(evictedThrough)..]
        {
          assert eventRing[i] == history[evictedThrough];
          RecordEviction(eventRing[i]);
        }
        eventRing := eventRing[overflow..];
        assert eventRing == history[evictedThrough..];
      }
    }

    /** Whether the table for this filter records an eviction beyond a positive
        cursor. */
    method EvictedBeyond(f: Filter, since: nat) returns (dropped: bool)
      requires Valid() && since <= eventSeq
      ensures var gone := Evicted(|history|, bufferSize);
              Unambiguous(f) ==>
                && (dropped ==> SomeMatch(history, f, since, gone))
                && (TableComplete(f, history, gone) ==> (dropped <==> SomeMatch(history, f, since, gone)))
    {
      ghost var gone := Evicted(|history|, bufferSize);
      if f.category != "" && f.target != "" {
        if Unambiguous(f) {
          TableDecides(ByPair, f, evictedPair, history, gone, since);
        }
        dropped := Lookup(evictedPair, PairKey(f.category, f.target)) > since;
      } else if f.category != "" {
        TableDecides(ByCategory, f, evictedCategory, history, gone, since);
        dropped := Lookup(evictedCategory, f.category) > since;
      } else if f.target != "" {
        TableDecides(ByTarget, f, evictedTarget, history, gone, since);
        dropped := Lookup(evictedTarget, f.target) > since;
      } else {
        dropped := evictedThrough > since;
        assert dropped ==> Matches(f, history[since]);
      }
    }

    /** The cursor was taken from another daemon process. */
    predicate Stale(cursorStream: string) {
      cursorStream != "" && cursorStream != streamID
    }

    /** The page for a cursor. `dropped` is always genuine, and it is complete
        as long as the consulted table saw fewer than 256 keys. */
    method RecentEvents(since: int, limit: int, f: Filter, cursorStream: string) returns (page: Page)
      requires Valid()
      ensures PageAt(history, f, bufferSize, since, limit, Stale(cursorStream), page)
      ensures page.reset <==> Resets(since, Stale(cursorStream), |history|)
      ensures page.reset <==> (cursorStream != "" && cursorStream != streamID) || since > |history|
      ensures Holds(history, bufferSize, f, since, page) && Fills(history, f, limit, page)
    {
      hide Holds, Fills, Select, Wants;
      var stale := Stale(cursorStream);
      var reset := stale || since > eventSeq;
      var since' := if reset then 0 else since;
      ghost var eff := EffectiveCursor(since, stale, |history|);
      ghost var gone := Evicted(|history|, bufferSize);
      var dropped := false;
      if since' > 0 {
        dropped := EvictedBeyond(f, since');
      }
      var events := FilterRing(history, gone, eventRing, f, Max(0, since'));
      assert Max(gone, Max(0, since')) == Max(gone, eff);
      page := MakePage(events, eventSeq, limit, dropped, reset);
      PageMeans(history, bufferSize, f, since, limit, stale, page);
    }

    method IngestAll(batch: seq<(string, string)>)
      requires Valid()
      modifies this
      ensures Valid() && old(history) <= history
      ensures batch == [] ==> history == old(history)
    {
      for i := 0 to |batch|
        invariant Valid() && old(history) <= history
        invariant i == 0 ==> history == old(history)
      {
        var _ := Ingest(batch[i].0, batch[i].1);
      }
    }

    /** The paging loop of a follower, with `arrivals[k]` ingested between page
        `k` and page `k + 1`. It terminates for every finite list of arrivals and
        restarts from zero at most once, for a cursor this stream cannot have
        given. It prints in order and only past the cursor, and misses a matching
        event only when the ring evicted it, which a positive cursor is told
        about. Without arrivals it prints exactly the matching suffix. */
    method Recover(since: int, limit: int, f: Filter, cursorStream: string, arrivals: seq<seq<(string, string)>>)
      returns (printed: seq<Event>, gap: bool, reset: bool, cursor: int)
      requires Valid()
      modifies this
      ensures Valid() && old(history) <= history
      ensures reset <==> Resets(since, Stale(cursorStream), |old(history)|)
      ensures var eff := EffectiveCursor(since, Stale(cursorStream), |old(history)|);
              && PagedTo(history, f, bufferSize, eff, |history|, printed)
              && Gapless(history, f, bufferSize, eff, |history|, printed, gap)
              && ((forall a :: a in arrivals ==> a == []) ==>
                    && history == old(history)
                    && ShownFrom(history, f, Max(Evicted(|history|, bufferSize), eff), |history|, printed))
    {
      hide PagedTo, Gapless, ShownFrom, PageAt, Numbered, Categorized;
      printed, gap, reset, cursor := [], false, false, since;
      var expected, done, k := cursorStream, false, 0;
      ghost var eff: nat := EffectiveCursor(since, Stale(cursorStream), |history|);
      ghost var start := Max(Evicted(|history|, bufferSize), eff);
      ghost var toReset := Resets(since, Stale(cursorStream), |history|);
      NothingShown(history, f, bufferSize, eff);
      while !done
        invariant Valid() && old(history) <= history && k <= |arrivals|
        invariant toReset ==> cursor == since && expected == cursorStream && history == old(history) && !reset && !done
        invariant reset <==> Resets(since, Stale(cursorStream), |old(history)|) && !toReset
        invariant !toReset ==> !Stale(expected) && eff <= Max(cursor, 0) <= |history|
        invariant var upto := if done then |history| else if toReset then eff else Max(cursor, 0);
                  && PagedTo(history, f, bufferSize, eff, upto, printed)
                  && Gapless(history, f, bufferSize, eff, upto, printed, gap)
                  && ((forall a :: a in arrivals ==> a == []) ==>
                        history == old(history) && ShownFrom(history, f, start, upto, printed))
        decreases toReset, !done, |arrivals| - k, eventSeq - Max(cursor, 0)
      {
        var page := RecentEvents(cursor, limit, f, expected);
        if expected == "" {
          expected := streamID;
        }
        if page.reset || expected != streamID {
          reset, expected, cursor, toReset := true, streamID, 0, false;
          continue;
        }
        PageFolds(history, bufferSize, eff, Max(Evicted(|history|, bufferSize), eff), cursor, limit, f, printed, gap, page);
        printed, gap, cursor, done := printed + page.events, gap || page.dropped, page.next, !page.truncated;
        if !done && k < |arrivals| {
          ghost var before := history;
          assert arrivals[k] in arrivals;
          IngestAll(arrivals[k]);
          k := k + 1;
          PagedGrown(before, history, f, bufferSize, eff, cursor, printed, gap);
        }
      }
    }
  }

  /** What a pager has shown once it resolved the history up to `upto`:
      matching events past its start, in order, missing only evicted ones. */
  ghost predicate PagedTo(h: seq<Event>, f: Filter, bufferSize: nat, since: nat, upto: nat, printed: seq<Event>) {
    && Ascending(printed)
    && (forall e :: e in printed ==> since < e.number <= upto <= |h| && h[e.number - 1] == e && Matches(f, e))
    && (forall i :: since <= i < upto && i < |h| && Matches(f, h[i]) && h[i] !in printed ==>
          i < Evicted(|h|, bufferSize))
  }

  /** Without a gap report from a positive cursor on, nothing was missed. */
  ghost predicate Gapless(h: seq<Event>, f: Filter, bufferSize: nat, since: nat, upto: nat, printed: seq<Event>, gap: bool) {
    since > 0 && !gap && Unambiguous(f) && upto <= |h| && TableComplete(f, h, Evicted(|h|, bufferSize)) ==>
      printed == Select(h, Replay(f), since, upto)
  }

  /** Exactly the matching part of the ring from `start` on. */
  ghost predicate ShownFrom(h: seq<Event>, f: Filter, start: nat, upto: nat, printed: seq<Event>) {
    start <= |h| && upto <= |h| && printed == Select(h, Replay(f), start, Max(start, upto))
  }

  lemma PageExtends(h: seq<Event>, f: Filter, bufferSize: nat, since: nat, cursor: nat, printed: seq<Event>,
                    page: Page)
    requires Numbered(h) && since <= cursor <= |h| == page.lastSeq
    requires Resolves(h, bufferSize, f, cursor, page)
    requires PagedTo(h, f, bufferSize, since, cursor, printed)
    ensures PagedTo(h, f, bufferSize, since, Upto(page), printed + page.events)
  {
    SelectMembers(h, Replay(f), Max(Evicted(|h|, bufferSize), cursor), Upto(page));
  }

  /** While no matching event behind the cursor was evicted, the pages put
      together are one selection. */
  lemma PageContinues(h: seq<Event>, f: Filter, bufferSize: nat, since: nat, cursor: nat, printed: seq<Event>,
                      page: Page)
    requires since <= cursor <= |h| == page.lastSeq
    requires Resolves(h, bufferSize, f, cursor, page)
    requires printed == Select(h, Replay(f), since, cursor) && !SomeMatch(h, f, cursor, Evicted(|h|, bufferSize))
    ensures printed + page.events == Select(h, Replay(f), since, Upto(page))
  {
    var q, lo := Replay(f), Max(Evicted(|h|, bufferSize), cursor);
    assert NoneWanted(h, q, cursor, lo);
    hide Select, Wants, SomeMatch, NoneWanted;
    SelectSplit(h, q, since, cursor, Upto(page));
    SelectSplit(h, q, cursor, lo, Upto(page));
    SelectEmpty(h, q, cursor, lo);
    assert Select(h, q, cursor, Upto(page)) == page.events;
  }

  /** While nothing is evicted any more, they are the suffix the ring held. */
  lemma PageContinuesRing(h: seq<Event>, f: Filter, bufferSize: nat, start: nat, cursor: nat, printed: seq<Event>,
                          page: Page)
    requires cursor <= |h| == page.lastSeq && Evicted(|h|, bufferSize) <= start
    requires Resolves(h, bufferSize, f, cursor, page)
    requires start <= Max(Evicted(|h|, bufferSize), cursor)
    requires printed == Select(h, Replay(f), start, Max(start, cursor))
    ensures printed + page.events == Select(h, Replay(f), start, Max(start, Upto(page)))
  {
    var q, lo := Replay(f), Max(Evicted(|h|, bufferSize), cursor);
    hide Select, Wants, Evicted;
    SelectSplit(h, q, start, lo, Upto(page));
  }

  lemma PagedGrown(h: seq<Event>, h': seq<Event>, f: Filter, bufferSize: nat, since: nat, upto: nat,
                   printed: seq<Event>, gap: bool)
    requires h <= h' && upto <= |h|
    requires PagedTo(h, f, bufferSize, since, upto, printed) && Gapless(h, f, bufferSize, since, upto, printed, gap)
    ensures PagedTo(h', f, bufferSize, since, upto, printed) && Gapless(h', f, bufferSize, since, upto, printed, gap)
  {
    hide Matches;
    SelectGrown(h, h', Replay(f), since, upto);
    if f.target != "" {
      KeysGrown(if f.category == "" then ByTarget else ByPair, h, h', Evicted(|h|, bufferSize), Evicted(|h'|, bufferSize));
    }
  }

  lemma NothingShown(h: seq<Event>, f: Filter, bufferSize: nat, since: nat)
    requires since <= |h|
    ensures PagedTo(h, f, bufferSize, since, since, []) && Gapless(h, f, bufferSize, since, since, [], false)
    ensures ShownFrom(h, f, Max(Evicted(|h|, bufferSize), since), since, [])
  {}

  /** What the eviction tables say, when `gone` events are evicted, of a filter
      and an effective cursor: never a false drop for an unambiguous filter, and
      the exact answer while its table is complete. */
  ghost predicate FlagAt(h: seq<Event>, f: Filter, gone: nat, eff: nat, dropped: bool)
    requires gone <= |h|
  {
    && (eff == 0 ==> !dropped)
    && (Unambiguous(f) ==>
          && (dropped ==> TrulyDropped(h, gone, f, eff))
          && (TableComplete(f, h, gone) ==> (dropped <==> TrulyDropped(h, gone, f, eff))))
  }

  /** What the consumer has to go on about a page. */
  ghost predicate PageAt(h: seq<Event>, f: Filter, bufferSize: nat, cursor: int, limit: int, stale: bool, page: Page) {
    && page == PageWith(h, |h|, bufferSize, f, cursor, limit, stale, page.dropped)
    && FlagAt(h, f, Evicted(|h|, bufferSize), EffectiveCursor(cursor, stale, |h|), page.dropped)
  }

  /** One more page, printed after the others. */
  lemma PageFolds(h: seq<Event>, bufferSize: nat, since: nat, start: nat, cursor: int, limit: int, f: Filter,
                  printed: seq<Event>, gap: bool, page: Page)
    requires Numbered(h) && since <= Max(cursor, 0) <= |h| && start == Max(Evicted(|h|, bufferSize), since)
    requires PageAt(h, f, bufferSize, cursor, limit, false, page)
    requires PagedTo(h, f, bufferSize, since, Max(cursor, 0), printed)
    requires Gapless(h, f, bufferSize, since, Max(cursor, 0), printed, gap)
    ensures Max(cursor, 0) <= page.next <= |h| && (page.truncated ==> Max(cursor, 0) < page.next)
    ensures var upto := if page.truncated then page.next else |h|;
            && PagedTo(h, f, bufferSize, since, upto, printed + page.events)
            && Gapless(h, f, bufferSize, since, upto, printed + page.events, gap || page.dropped)
            && (ShownFrom(h, f, start, Max(cursor, 0), printed) ==> ShownFrom(h, f, start, upto, printed + page.events))
  {
    hide Select, TableComplete, Unambiguous, Numbered;
    var at: nat := Max(cursor, 0);
    PageResolves(h, |h|, bufferSize, f, cursor, limit, false, page.dropped);
    PageExtends(h, f, bufferSize, since, at, printed, page);
    if printed == Select(h, Replay(f), since, at) && !SomeMatch(h, f, at, Evicted(|h|, bufferSize)) {
      PageContinues(h, f, bufferSize, since, at, printed, page);
    }
    if ShownFrom(h, f, start, at, printed) {
      PageContinuesRing(h, f, bufferSize, start, at, printed, page);
    }
  }

  lemma {:induction false} KeysGrown(axis: Axis, h: seq<Event>, h': seq<Event>, n: nat, m: nat)
    requires h <= h' && n <= |h| && n <= m <= |h'|
    ensures Keys(axis, h, n) <= Keys(axis, h', m)
    ensures FewKeys(axis, h', m) ==> FewKeys(axis, h, n)
    decreases m
  {
    if m > n {
      KeysGrown(axis, h, h', n, m - 1);
    } else if n > 0 {
      KeysGrown(axis, h, h', n - 1, n - 1);
    }
    SubsetCount(Keys(axis, h, n), Keys(axis, h', m));
  }
}
