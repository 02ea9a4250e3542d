/** Daemon events, the replay filter, the live subscription, and the replay
    page as a function of the daemon's full event history. */
module Events {
  import opened Text

  /** One ingested event; `number` is the daemon-local sequence, the rest of the
      payload plays no part in delivery. */
  datatype Event = Event(number: nat, category: string, target: string)

  /** Empty strings mean "no filter", as in the command line and the IPC call. */
  datatype Filter = Filter(category: string, target: string)

  const CATEGORIES: set<string> := {"hello", "chat", "game", "mark", "error", "sample", "other"}

  predicate Known(category: string) {
    category in CATEGORIES
  }

  function Categorize(eventType: string): (category: string)
    ensures Known(category)
  {
    if eventType in {"hello", "chat", "game", "mark"} then eventType
    else if eventType in {"error", "disconnected", "bridge_disconnected", "event_gap"} then "error"
    else if "sample" <= eventType then "sample"
    else if HasSuffix(eventType, "_error") then "error"
    else "other"
  }

  predicate HasSuffix(text: string, suffix: string) {
    |suffix| <= |text| && text[|text| - |suffix|..] == suffix
  }

  lemma SuffixIsEnd(text: string, suffix: string)
    ensures HasSuffix(text, suffix) <==> exists stem :: text == stem + suffix
  {
    if HasSuffix(text, suffix) {
      assert text == text[..|text| - |suffix|] + suffix;
    }
  }

  /** Which types each category gathers: four name themselves alone, samples win
      over errors, and a category used as a type stays where it is. */
  lemma CategorizeExactly(eventType: string)
    ensures eventType in {"hello", "chat", "game", "mark"} <==> Categorize(eventType) in {"hello", "chat", "game", "mark"}
    ensures Categorize(eventType) in {"hello", "chat", "game", "mark"} ==> Categorize(eventType) == eventType
    ensures Categorize(eventType) == "sample" <==> "sample" <= eventType
    ensures Categorize(eventType) == "error" <==>
              || eventType in {"error", "disconnected", "bridge_disconnected", "event_gap"}
              || ((exists stem :: eventType == stem + "_error") && !("sample" <= eventType))
    ensures Categorize(Categorize(eventType)) == Categorize(eventType)
  {
    var suffix := "_error";
    assert "sample" <= eventType ==> eventType[0] == 's';
    SuffixIsEnd(eventType, suffix);
    if HasSuffix(eventType, suffix) {
      assert eventType[|eventType| - 6] == suffix[0];
    }
  }

  predicate Matches(f: Filter, e: Event) {
    && (f.category == "" || e.category == f.category)
    && (f.target == "" || e.target == f.target)
  }

  /** Whether the server pushes events of `category` to a follower started with
      the given category flag: an empty flag subscribes to `*`, any other flag
      subscribes to its trimmed text, and a blank subscription is ignored. */
  predicate Subscribed(flag: string, category: string) {
    flag == "" || Trim(flag) == "*" || (Trim(flag) != "" && Trim(flag) == category)
  }

  /** What is being selected from the history: a replay page applies the whole
      filter, the live stream only the category subscription. */
  datatype Query = Replay(filter: Filter) | Live(filter: Filter)

  predicate Wants(q: Query, e: Event) {
    match q
    case Replay(f) => Matches(f, e)
    case Live(f) => Subscribed(f.category, e.category)
  }

  /** `h[i]` carries sequence `i + 1`. */
  ghost predicate Numbered(h: seq<Event>) {
    forall i :: 0 <= i < |h| ==> h[i].number == i + 1
  }

  /** Every category came from `Categorize`. */
  ghost predicate Categorized(h: seq<Event>) {
    forall e :: e in h ==> Known(e.category)
  }

  lemma KnownCategoriesAreTrimmed(c: string)
    requires Known(c)
    ensures Trim(c) == c && c != "" && c != "*"
  {
    hide Trim;
    TrimNothing(c);
  }

  lemma KnownCategoriesHaveNoNul(c: string)
    requires Known(c)
    ensures '\0' !in c
  {}

  lemma ReplayIsSubscribed(f: Filter, e: Event)
    requires Known(e.category)
    requires Matches(f, e)
    ensures Wants(Live(f), e)
  {
    hide Known, Trim;
    KnownCategoriesAreTrimmed(e.category);
  }

  /** The category flag for which the live stream carries exactly what a replay
      page would: absent, free of surrounding blanks and not `*`, or naming no
      category at all. */
  predicate LiveAgreesWithReplay(flag: string) {
    Trim(flag) != "*" && (flag == "" || Trim(flag) == flag || !Known(Trim(flag)))
  }

  /** A live push is filtered by subscription only, so `--category '*'` or a
      padded category delivers live events no replay page would return. */
  lemma LiveAgreesWithReplayExact(flag: string)
    ensures LiveAgreesWithReplay(flag)
       <==> forall e: Event | Known(e.category) ::
              Subscribed(flag, e.category) <==> Matches(Filter(flag, ""), e)
  {
    assert Known("chat") && Known("game");
    hide Known;
    KnownCategoriesAreTrimmed("chat");
    KnownCategoriesAreTrimmed("game");
    forall e: Event | Known(e.category) ensures Trim(e.category) == e.category != "" && e.category != "*" {
      KnownCategoriesAreTrimmed(e.category);
    }
    if !LiveAgreesWithReplay(flag) {
      var witnessed := Event(1, if Trim(flag) != "*" then Trim(flag) else if flag == "chat" then "game" else "chat", "");
      assert Known(witnessed.category) && Subscribed(flag, witnessed.category);
    }
  }

  /** The wanted events of `h[lo..hi]`, oldest first. */
  function Select(h: seq<Event>, q: Query, lo: nat, hi: nat): seq<Event>
    requires hi <= |h|
    decreases hi - lo
  {
    if hi <= lo then []
    else (if Wants(q, h[lo]) then [h[lo]] else []) + Select(h, q, lo + 1, hi)
  }

  ghost predicate NoneWanted(h: seq<Event>, q: Query, lo: nat, hi: int) {
    forall i :: lo <= i < hi && i < |h| ==> !Wants(q, h[i])
  }

  lemma {:induction false} SelectSnoc(h: seq<Event>, q: Query, lo: nat, hi: nat)
    requires hi < |h|
    ensures Select(h, q, lo, hi + 1)
         == Select(h, q, lo, hi) + (if lo <= hi && Wants(q, h[hi]) then [h[hi]] else [])
    decreases hi - lo
  {
    hide Wants;
    if lo < hi {
      SelectSnoc(h, q, lo + 1, hi);
    }
  }

  lemma {:induction false} SelectGrown(h: seq<Event>, h': seq<Event>, q: Query, lo: nat, hi: nat)
    requires hi <= |h| && h <= h'
    ensures Select(h', q, lo, hi) == Select(h, q, lo, hi)
    decreases hi - lo
  {
    hide Wants;
    if lo < hi {
      SelectGrown(h, h', q, lo + 1, hi);
    }
  }

  lemma {:induction false} SelectEmpty(h: seq<Event>, q: Query, lo: nat, hi: nat)
    requires hi <= |h|
    ensures Select(h, q, lo, hi) == [] <==> NoneWanted(h, q, lo, hi)
    decreases hi - lo
  {
    hide Wants;
    if lo < hi {
      SelectEmpty(h, q, lo + 1, hi);
      if Wants(q, h[lo]) {
        assert !NoneWanted(h, q, lo, hi);
      } else {
        assert NoneWanted(h, q, lo, hi) <==> NoneWanted(h, q, lo + 1, hi);
      }
    }
  }

  /** The head of a selection is the first wanted event, and the tail is the
      selection that starts right after it. */
  lemma {:induction false} SelectHead(h: seq<Event>, q: Query, lo: nat, hi: nat)
    requires hi <= |h| && Numbered(h)
    requires Select(h, q, lo, hi) != []
    ensures var e := Select(h, q, lo, hi)[0];
            && lo < e.number <= hi && h[e.number - 1] == e && Wants(q, e)
            && NoneWanted(h, q, lo, e.number - 1)
            && Select(h, q, lo, hi)[1..] == Select(h, q, e.number, hi)
    decreases hi - lo
  {
    hide Wants;
    if !Wants(q, h[lo]) {
      SelectHead(h, q, lo + 1, hi);
    }
  }

  ghost predicate Ascending(s: seq<Event>) {
    forall i, j :: 0 <= i < j < |s| ==> s[i].number < s[j].number
  }

  lemma {:induction false} SelectedIsWanted(h: seq<Event>, q: Query, lo: nat, hi: nat, e: Event)
    requires hi <= |h| && Numbered(h)
    requires e in Select(h, q, lo, hi)
    ensures lo < e.number <= hi && h[e.number - 1] == e && Wants(q, e)
    decreases hi - lo
  {
    hide Wants;
    if !(Wants(q, h[lo]) && e == h[lo]) {
      SelectedIsWanted(h, q, lo + 1, hi, e);
    }
  }

  lemma {:induction false} WantedIsSelected(h: seq<Event>, q: Query, lo: nat, hi: nat, i: nat)
    requires lo <= i < hi <= |h|
    requires Wants(q, h[i])
    ensures h[i] in Select(h, q, lo, hi)
    decreases hi - lo
  {
    hide Wants;
    var rest := Select(h, q, lo + 1, hi);
    if lo < i {
      WantedIsSelected(h, q, lo + 1, hi, i);
      var k :| 0 <= k < |rest| && rest[k] == h[i];
      assert Select(h, q, lo, hi)[if Wants(q, h[lo]) then k + 1 else k] == h[i];
    } else {
      assert Select(h, q, lo, hi)[0] == h[i];
    }
  }

  lemma {:induction false} SelectAscends(h: seq<Event>, q: Query, lo: nat, hi: nat)
    requires hi <= |h| && Numbered(h)
    ensures Ascending(Select(h, q, lo, hi))
    decreases hi - lo
  {
    hide Wants;
    if lo < hi {
      SelectAscends(h, q, lo + 1, hi);
      var rest := Select(h, q, lo + 1, hi);
      forall j | 0 <= j < |rest| ensures lo + 1 < rest[j].number {
        SelectedIsWanted(h, q, lo + 1, hi, rest[j]);
      }
    }
  }

  /** Everything in a selection is a wanted history event of the range, in
      order, and every wanted event of the range is in it. */
  lemma SelectMembers(h: seq<Event>, q: Query, lo: nat, hi: nat)
    requires hi <= |h| && Numbered(h)
    ensures Ascending(Select(h, q, lo, hi))
    ensures forall e :: e in Select(h, q, lo, hi) ==> lo < e.number <= hi && h[e.number - 1] == e && Wants(q, e)
    ensures forall i :: lo <= i < hi && Wants(q, h[i]) ==> h[i] in Select(h, q, lo, hi)
  {
    hide Wants, Select;
    SelectAscends(h, q, lo, hi);
    forall e | e in Select(h, q, lo, hi)
      ensures lo < e.number <= hi && h[e.number - 1] == e && Wants(q, e)
    {
      SelectedIsWanted(h, q, lo, hi, e);
    }
    forall i | lo <= i < hi && Wants(q, h[i]) ensures h[i] in Select(h, q, lo, hi) {
      WantedIsSelected(h, q, lo, hi, i);
    }
  }

  lemma {:induction false} SelectSplit(h: seq<Event>, q: Query, lo: nat, mid: nat, hi: nat)
    requires lo <= mid <= hi <= |h|
    ensures Select(h, q, lo, hi) == Select(h, q, lo, mid) + Select(h, q, mid, hi)
    decreases mid - lo
  {
    hide Wants;
    if lo < mid {
      SelectSplit(h, q, lo + 1, mid, hi);
    }
  }

  lemma SelectOne(h: seq<Event>, q: Query, lo: nat, k: nat)
    requires lo <= k < |h| && Wants(q, h[k]) && NoneWanted(h, q, lo, k)
    ensures Select(h, q, lo, k + 1) == [h[k]]
  {
    hide Wants, Select;
    SelectSnoc(h, q, lo, k);
    SelectEmpty(h, q, lo, k);
  }

  /** Cutting a selection short at its `k`-th element keeps exactly the wanted
      events up to that element's sequence. */
  lemma {:induction false} SelectPrefix(h: seq<Event>, q: Query, lo: nat, hi: nat, k: nat)
    requires hi <= |h| && Numbered(h)
    requires 0 < k <= |Select(h, q, lo, hi)|
    ensures var m := Select(h, q, lo, hi)[k - 1].number;
            lo < m <= hi && Select(h, q, lo, hi)[..k] == Select(h, q, lo, m)
    decreases k
  {
    hide Wants, Select;
    var s := Select(h, q, lo, hi);
    SelectHead(h, q, lo, hi);
    var e := s[0];
    SelectOne(h, q, lo, e.number - 1);
    if k == 1 {
      assert s[..1] == [e];
    } else {
      var t := Select(h, q, e.number, hi);
      assert s == [e] + t;
      SelectPrefix(h, q, e.number, hi, k - 1);
      assert t[k - 2] == s[k - 1];
      SelectSplit(h, q, lo, e.number, s[k - 1].number);
      assert s[..k] == [e] + t[..k - 1];
    }
  }

  // ------------------------------------------------------------------ pages

  function Max(a: int, b: int): int {
    if a < b then b else a
  }

  /** How many of the first `n` events a ring of `bufferSize` has evicted. */
  function Evicted(n: nat, bufferSize: nat): nat {
    if n > bufferSize then n - bufferSize else 0
  }

  ghost predicate SomeMatch(h: seq<Event>, f: Filter, lo: nat, hi: nat) {
    exists i :: lo <= i < hi && i < |h| && Matches(f, h[i])
  }

  datatype Page = Page(events: seq<Event>, next: nat, dropped: bool, truncated: bool, reset: bool, lastSeq: nat)

  /** A request made with `since` restarts from zero when it names another
      stream or a sequence the stream has not reached. */
  predicate Resets(since: int, staleStream: bool, n: nat) {
    staleStream || since > n
  }

  function EffectiveCursor(since: int, staleStream: bool, n: nat): (eff: nat) {
    if Resets(since, staleStream, n) || since < 0 then 0 else since
  }

  /** The page over a history of length `n`, with the dropped flag supplied by
      the eviction tables: the first `limit` matching events after the
      effective cursor among the last `bufferSize` of the history. */
  function PageWith(h: seq<Event>, n: nat, bufferSize: nat, f: Filter, since: int, limit: int,
                    staleStream: bool, dropped: bool): Page
    requires n <= |h|
  {
    var lo := Max(Evicted(n, bufferSize), EffectiveCursor(since, staleStream, n));
    CutPage(Select(h, Replay(f), lo, n), n, limit, dropped, Resets(since, staleStream, n))
  }

  function CutPage(found: seq<Event>, n: nat, limit: int, dropped: bool, reset: bool): Page {
    var truncated := 0 < limit < |found|;
    var events := if truncated then found[..limit] else found;
    Page(events, if events == [] then n else events[|events| - 1].number, dropped, truncated, reset, n)
  }

  /** The dropped flag the design promises: a matching event after a positive
      cursor is among the first `gone` events, the evicted ones. */
  ghost predicate TrulyDropped(h: seq<Event>, gone: nat, f: Filter, eff: nat) {
    eff > 0 && SomeMatch(h, f, eff, gone)
  }

  /** How far a page resolves the history: a truncated page only up to its last
      event, a complete one up to the boundary it was taken at. */
  function Upto(p: Page): nat {
    if p.truncated then p.next else p.lastSeq
  }

  /** A page taken at `n` resolves the history from the cursor up to `Upto`: it
      is exactly the matching part of what the ring still held. */
  ghost predicate Resolves(h: seq<Event>, bufferSize: nat, f: Filter, cursor: nat, p: Page) {
    var lo := Max(Evicted(p.lastSeq, bufferSize), cursor);
    && lo <= Upto(p) <= p.lastSeq <= |h|
    && p.events == Select(h, Replay(f), lo, Upto(p))
    && cursor <= p.next <= p.lastSeq
    && (p.truncated ==> cursor < p.next && p.events != [])
    && (p.events != [] ==> p.next == p.events[|p.events| - 1].number)
    && (p.events == [] ==> p.next == p.lastSeq)
  }

  /** A page is as long as its limit lets it be: cut only when it is full and a
      matching event lies past it, and otherwise nothing does. */
  ghost predicate Fills(h: seq<Event>, f: Filter, limit: int, p: Page) {
    && (limit > 0 ==> |p.events| <= limit)
    && (p.truncated ==> limit > 0 && |p.events| == limit && SomeMatch(h, f, p.next, p.lastSeq))
    && (!p.truncated ==> !SomeMatch(h, f, p.next, p.lastSeq))
  }

  /** What lies past the last of a selection, or past one element of it. */
  lemma NoneAfterLast(h: seq<Event>, f: Filter, lo: nat, n: nat)
    requires n <= |h| && Numbered(h)
    ensures var found := Select(h, Replay(f), lo, n);
            found != [] ==> found[|found| - 1].number <= n && !SomeMatch(h, f, found[|found| - 1].number, n)
  {
    var found := Select(h, Replay(f), lo, n);
    if found != [] {
      var last := found[|found| - 1];
      assert last in found;
      SelectedIsWanted(h, Replay(f), lo, n, last);
      if i :| last.number <= i < n && i < |h| && Matches(f, h[i]) {
        WantedIsSelected(h, Replay(f), lo, n, i);
        SelectAscends(h, Replay(f), lo, n);
        hide Select, Wants;
        var k :| 0 <= k < |found| && found[k] == h[i];
        assert found[k].number <= last.number;
      }
    }
  }

  lemma SomeAfterOther(h: seq<Event>, f: Filter, lo: nat, n: nat, k: nat)
    requires n <= |h| && Numbered(h) && 0 < k < |Select(h, Replay(f), lo, n)|
    ensures SomeMatch(h, f, Select(h, Replay(f), lo, n)[k - 1].number, n)
  {
    var found := Select(h, Replay(f), lo, n);
    var next := found[k];
    SelectedIsWanted(h, Replay(f), lo, n, next);
    SelectAscends(h, Replay(f), lo, n);
    hide Select;
    assert found[k - 1].number < next.number;
    assert Matches(f, h[next.number - 1]);
  }

  lemma PageFills(h: seq<Event>, n: nat, bufferSize: nat, f: Filter, since: int, limit: int,
                  staleStream: bool, dropped: bool)
    requires n <= |h| && Numbered(h)
    ensures Fills(h, f, limit, PageWith(h, n, bufferSize, f, since, limit, staleStream, dropped))
  {
    hide Wants, Select, SomeMatch, Numbered;
    var lo := Max(Evicted(n, bufferSize), EffectiveCursor(since, staleStream, n));
    var found := Select(h, Replay(f), lo, n);
    NoneAfterLast(h, f, lo, n);
    NoneAtEnd(h, f, n);
    if 0 < limit < |found| {
      SomeAfterOther(h, f, lo, n, limit);
    }
  }

  lemma NoneAtEnd(h: seq<Event>, f: Filter, n: nat)
    ensures !SomeMatch(h, f, n, n)
  {}

  lemma PageResolves(h: seq<Event>, n: nat, bufferSize: nat, f: Filter, since: int, limit: int,
                     staleStream: bool, dropped: bool)
    requires n <= |h| && Numbered(h)
    ensures Resolves(h, bufferSize, f, EffectiveCursor(since, staleStream, n),
                     PageWith(h, n, bufferSize, f, since, limit, staleStream, dropped))
  {
    hide Wants, Select;
    var lo := Max(Evicted(n, bufferSize), EffectiveCursor(since, staleStream, n));
    var found := Select(h, Replay(f), lo, n);
    if 0 < limit < |found| {
      SelectPrefix(h, Replay(f), lo, n, limit);
    } else if found != [] {
      SelectedIsWanted(h, Replay(f), lo, n, found[|found| - 1]);
    }
  }
}
