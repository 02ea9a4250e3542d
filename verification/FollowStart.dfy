/** Where a follower starts and what its client markers stand for: counts are
    conserved, and what the cursor asked to skip is printed exactly when a
    recovery restarts from zero over it. */
module FollowStart {
  import opened Events
  import opened Follow
  import opened FollowProof
  import opened Wrappers
  import EventRing

  // ------------------------------------------------------------------- counts

  lemma {:induction false} ReportedAppend(a: seq<Line>, b: seq<Line>)
    ensures Reported(a + b) == Reported(a) + Reported(b)
    decreases |b|
  {
    if b == [] {
      assert a + b == a;
    } else {
      assert (a + b)[..|a + b| - 1] == a + b[..|b| - 1];
      ReportedAppend(a, b[..|b| - 1]);
    }
  }

  lemma {:induction false} ReportedLines(events: seq<Event>)
    ensures Reported(Lines(events)) == 0
    decreases |events|
  {
    if events != [] {
      assert Lines(events)[..|events| - 1] == Lines(events[..|events| - 1]);
      ReportedLines(events[..|events| - 1]);
    }
  }

  lemma {:induction false} TagsSnoc(queue: seq<Tagged>, item: Tagged)
    ensures Tags(queue + [item]) == Tags(queue) + item.droppedBefore
    decreases |queue|
  {
    if queue != [] {
      assert (queue + [item])[1..] == queue[1..] + [item];
      TagsSnoc(queue[1..], item);
    }
  }

  /** Every overflow is reported or still on its way, exactly once, and a count
      is never more than one. */
  ghost predicate CountOk(s: State) {
    && Reported(s.out) + Outstanding(s) == s.episodes
    && s.dropped <= 1 && (forall k :: 0 <= k < |s.queue| ==> s.queue[k].droppedBefore <= 1)
    && (s.reader.Holding? ==> s.reader.item.droppedBefore <= 1)
    && (s.reader.Holding? || s.reader.Counting? ==> s.dropped == 0)
    && forall j :: 0 <= j < |s.out| && s.out[j].Gap? ==> s.out[j].clientDropped <= 1
  }

  lemma CountSame(s: State, s': State)
    requires CountOk(s)
    requires s'.out == s.out && s'.dropped == s.dropped && s'.queue == s.queue && s'.reader == s.reader
    requires s'.episodes == s.episodes
    ensures CountOk(s')
  {
    hide Reported, Tags;
  }

  lemma CountReader(c: Config, s: State, step: Step)
    requires CountOk(s) && Enabled(c, s, step)
    requires step.ReaderTake? || step.ReaderOffer? || step.ReaderCount? || step.ReaderNotify?
    ensures CountOk(Apply(c, s, step))
  {
    hide Reported, Tags, FlagAllowed;
    match step
    case ReaderTake =>
    case ReaderOffer =>
      TagsSnoc(s.queue, s.reader.item);
    case ReaderCount =>
    case ReaderNotify =>
  }

  /** A marker takes over the count it reports. */
  lemma CountMarker(s: State, s': State, line: Line)
    requires CountOk(s) && s'.out == s.out + [line]
    requires s'.queue == s.queue && s'.reader == s.reader && s'.episodes == s.episodes
    requires if line.Gap? then line.clientDropped + s'.dropped == s.dropped else s'.dropped == s.dropped
    ensures CountOk(s')
  {
    ReportedAppend(s.out, [line]);
    assert [line][..0] == [];
    hide Tags;
  }

  lemma CountPage(c: Config, s: State)
    requires CountOk(s) && s.phase.Await? && s.reply.Some?
    ensures CountOk(DoPage(c, s))
  {
    if s.reply.value.reset {
      hide CountOk;
      CountMarker(s, DoPage(c, s), GapLine(s, true, 0));
    } else {
      CountPrint(s, DoPage(c, s), s.reply.value);
    }
  }

  lemma CountPrint(s: State, s': State, p: Page)
    requires CountOk(s) && s'.out == PageLines(s, p) + Lines(p.events)
    requires s'.queue == s.queue && s'.reader == s.reader && s'.dropped == s.dropped && s'.episodes == s.episodes
    ensures CountOk(s')
  {
    PageReports(s, p);
    hide Reported, Tags;
  }

  lemma PageReports(s: State, p: Page)
    ensures Reported(PageLines(s, p) + Lines(p.events)) == Reported(s.out)
  {
    ReportedAppend(PageLines(s, p), Lines(p.events));
    ReportedLines(p.events);
    if p.dropped {
      ReportedAppend(s.out, [GapLine(s, false, 0)]);
      assert [GapLine(s, false, 0)][..0] == [];
    } else {
      assert s.out + [] == s.out;
    }
  }

  lemma CountHandle(c: Config, s: State, e: Event)
    requires CountOk(s)
    ensures CountOk(Handle(c, s, e))
  {
    var s' := Handle(c, s, e);
    if s'.out == s.out {
      CountSame(s, s');
    } else {
      hide CountOk, Handle;
      assert s'.out == s.out + [Printed(e)] && s'.queue == s.queue && s'.reader == s.reader by {
        HandlePrints(c, s, e);
      }
      CountMarker(s, s', Printed(e));
    }
  }

  lemma HandlePrints(c: Config, s: State, e: Event)
    ensures var s' := Handle(c, s, e);
            && (s'.out == s.out || s'.out == s.out + [Printed(e)])
            && s'.queue == s.queue && s'.reader == s.reader && s'.dropped == s.dropped && s'.episodes == s.episodes
  {}

  lemma CountPoll(c: Config, s: State)
    requires CountOk(s) && s.phase.Poll?
    ensures CountOk(DoPoll(c, s))
  {
    hide CountOk, Handle;
    var s' := DoPoll(c, s);
    if s.dropped > 0 {
      CountMarker(s, s', GapLine(s, false, s.dropped));
    } else if s.phase.origin.Replaying? {
      CountMarker(s, s', FollowingNow(s.lastSeq));
    } else if Held(s).Some? {
      CountHandle(c, s, Held(s).value);
    } else {
      CountSame(s, s');
    }
  }

  lemma CountEvent(c: Config, s: State)
    requires CountOk(s) && s.phase.Choose? && s.queue != []
    ensures CountOk(DoEvent(c, s))
  {
    var s0 := s.(queue := s.queue[1..]);
    var item := s.queue[0];
    if item.droppedBefore > 0 {
      var line := GapLine(s0, false, item.droppedBefore);
      ReportedAppend(s.out, [line]);
      assert [line][..0] == [];
      assert DoEvent(c, s).out == s.out + [line];
    } else {
      assert CountOk(s0);
      CountHandle(c, s0, item.event);
    }
  }

  lemma CountStep(c: Config, s: State, step: Step)
    requires CountOk(s) && Enabled(c, s, step)
    ensures CountOk(Apply(c, s, step))
  {
    hide CountOk, DoPage, DoPoll, DoEvent, FlagAllowed, PageWith, Categorize;
    match step
    case ReaderTake => CountReader(c, s, step);
    case ReaderOffer => CountReader(c, s, step);
    case ReaderCount => CountReader(c, s, step);
    case ReaderNotify => CountReader(c, s, step);
    case ConsumerPage => CountPage(c, s);
    case ConsumerPoll => CountPoll(c, s);
    case ConsumerEvent => CountEvent(c, s);
    case ConsumerTake =>
      if s.dropped > 0 {
        CountMarker(s, DoTakeSignal(s), GapLine(s, false, s.dropped));
      } else {
        CountSame(s, DoTakeSignal(s));
      }
    case _ => CountSame(s, Apply(c, s, step));
  }

  // -------------------------------------------------------- live events are late

  /** Whatever is live was ingested after the subscription. */
  ghost predicate LateOk(c: Config, s: State) {
    && (s.reader.Holding? ==> s.reader.item.event.number > c.subscribedAt)
    && (forall k :: 0 <= k < |s.queue| ==> s.queue[k].event.number > c.subscribedAt)
    && (Held(s).Some? ==> Held(s).value.number > c.subscribedAt)
  }

  lemma LateTake(c: Config, s: State)
    requires HistoryOk(c, s) && LinkOk(c, s) && LateOk(c, s) && s.reader.Idle? && s.wire != []
    ensures LateOk(c, DoTake(s))
  {
    if s.wire[0].Push? {
      TakeLink(c, s);
    }
  }

  lemma LateConsumer(c: Config, s: State, step: Step)
    requires LateOk(c, s) && Enabled(c, s, step)
    requires step.ConsumerPoll? || step.ConsumerEvent? || step.ConsumerTake? || step.ConsumerPage?
    ensures LateOk(c, Apply(c, s, step))
  {
    hide LateOk, FlagAllowed, Lines, EffectiveCursor, Evicted;
    match step
    case ConsumerPage => LateSame(c, s, DoPage(c, s));
    case ConsumerPoll => LateSame(c, s, DoPoll(c, s));
    case ConsumerEvent => LateEvent(c, s);
    case ConsumerTake => LateSame(c, s, DoTakeSignal(s));
  }

  lemma LateEvent(c: Config, s: State)
    requires LateOk(c, s) && s.phase.Choose? && s.queue != []
    ensures LateOk(c, DoEvent(c, s))
  {
    var s' := DoEvent(c, s);
    assert s'.queue == s.queue[1..] && s'.reader == s.reader;
    assert Held(s').Some? ==> Held(s').value == s.queue[0].event;
    hide DoEvent, Held;
  }

  lemma LateSame(c: Config, s: State, s': State)
    requires LateOk(c, s) && s'.queue == s.queue && (Held(s') == Held(s) || Held(s').None?)
    requires s'.reader == s.reader || !s'.reader.Holding?
    ensures LateOk(c, s')
  {
    hide Held;
  }

  /** The steps that move neither the queue nor the consumer's held event. */
  lemma LateOthers(c: Config, s: State, step: Step)
    requires LateOk(c, s) && Enabled(c, s, step) && !step.ReaderTake? && !step.ReaderOffer?
    requires !step.ConsumerPage? && !step.ConsumerPoll? && !step.ConsumerEvent? && !step.ConsumerTake?
    ensures LateOk(c, Apply(c, s, step))
  {
    hide LateOk, FlagAllowed, PageWith, Categorize, Wants;
    var s' := Apply(c, s, step);
    match step
    case Ingest(_, _) => LateSame(c, s, s');
    case Disconnect => LateSame(c, s, s');
    case Snapshot => LateSame(c, s, s');
    case Answer(_) => LateSame(c, s, s');
    case ReaderCount => LateSame(c, s, s');
    case ReaderNotify => LateSame(c, s, s');
    case ConsumerAsk => LateSame(c, s, s');
    case ConsumerCheck => LateSame(c, s, s');
    case ConsumerSignal => LateSame(c, s, s');
    case ConsumerStop =>
      assert LateOk(c, s') by {
        LateStop(c, s);
      }
  }

  lemma LateStop(c: Config, s: State)
    requires LateOk(c, s)
    ensures LateOk(c, s.(phase := Stopped))
  {}

  lemma LateOffer(c: Config, s: State)
    requires LateOk(c, s) && s.reader.Holding?
    ensures LateOk(c, DoOffer(s))
  {}

  lemma LateStep(c: Config, s: State, step: Step)
    requires HistoryOk(c, s) && LinkOk(c, s) && LateOk(c, s) && Enabled(c, s, step)
    ensures LateOk(c, Apply(c, s, step))
  {
    hide HistoryOk, LinkOk, LateOk, FlagAllowed, DoPage, DoPoll, DoEvent, DoTakeSignal, DoTake, DoIngest, DoAnswer, DoOffer;
    match step
    case ReaderTake => LateTake(c, s);
    case ReaderOffer => LateOffer(c, s);
    case ConsumerPage => LateConsumer(c, s, step);
    case ConsumerPoll => LateConsumer(c, s, step);
    case ConsumerEvent => LateConsumer(c, s, step);
    case ConsumerTake => LateConsumer(c, s, step);
    case _ => LateOthers(c, s, step);
  }

  // ----------------------------------------------------------------- the start

  /** A bound belongs to a client marker printed before anything was delivered. */
  ghost predicate BoundsOk(s: State) {
    forall j :: j in s.bounds ==> j < |s.out| && EarlyLine(s.out[j])
  }

  predicate EarlyLine(line: Line) {
    line.Gap? && !line.reset && line.clientDropped > 0 && line.to == 0
  }

  /** Printing at or below the cursor and restarting below it go together, and
      the last delivered sequence is below it only then. */
  ghost predicate StartOk(c: Config, s: State) {
    && BoundsOk(s)
    && (OwnCursor(c) ==>
          && (s.from.None? ==> s.cursor == c.since && !s.staleStream)
          && (PrintedBelow(c, s) <==> RestartedBelow(c, s))
          && (0 < s.lastSeq <= c.since ==> RestartedBelow(c, s)))
  }

  lemma RestartedSame(c: Config, s: State, s': State)
    requires OwnCursor(c) && c.subscribedAt <= |s.history| && s.history <= s'.history && s'.bounds == s.bounds
    ensures RestartedBelow(c, s') <==> RestartedBelow(c, s)
  {
    forall j | j in s.bounds
      ensures SomeMatch(s'.history, c.filter, Evicted(s.bounds[j], c.bufferSize), c.since)
         <==> SomeMatch(s.history, c.filter, Evicted(s.bounds[j], c.bufferSize), c.since)
    {
      forall i | 0 <= i < c.since ensures s'.history[i] == s.history[i] {}
    }
  }

  /** Nothing is printed, and no page is accepted. */
  lemma StartSame(c: Config, s: State, s': State, lines: seq<Line>)
    requires StartOk(c, s) && c.subscribedAt <= |s.history| && s.history <= s'.history
    requires s'.out == s.out + lines && (forall k :: 0 <= k < |lines| ==> !lines[k].Printed?)
    requires s'.bounds == s.bounds && s'.lastSeq == s.lastSeq && s'.from == s.from
    requires s.from.Some? || (s'.cursor == s.cursor && s'.staleStream == s.staleStream)
    ensures StartOk(c, s')
  {
    if OwnCursor(c) {
      RestartedSame(c, s, s');
      hide RestartedBelow;
      if PrintedBelow(c, s) {
        var k :| 0 <= k < |s.out| && s.out[k].Printed? && s.out[k].event.number <= c.since;
        assert s'.out[k] == s.out[k];
      }
    }
  }

  /** Lines past the cursor, or any lines once something below it was printed. */
  lemma StartPrints(c: Config, s: State, s': State)
    requires StartOk(c, s) && c.subscribedAt <= |s.history| && s'.history == s.history && s.out <= s'.out
    requires s'.bounds == s.bounds && s'.from.Some?
    requires OwnCursor(c) ==>
               forall k :: |s.out| <= k < |s'.out| && s'.out[k].Printed? ==> s'.out[k].event.number > c.since || RestartedBelow(c, s)
    requires OwnCursor(c) ==> s'.lastSeq == s.lastSeq || s'.lastSeq > c.since || RestartedBelow(c, s)
    ensures StartOk(c, s')
  {
    if OwnCursor(c) {
      RestartedSame(c, s, s');
      hide RestartedBelow;
      if PrintedBelow(c, s) {
        var k :| 0 <= k < |s.out| && s.out[k].Printed? && s.out[k].event.number <= c.since;
        assert s'.out[k] == s.out[k];
      }
      if PrintedBelow(c, s') {
        var k :| 0 <= k < |s'.out| && s'.out[k].Printed? && s'.out[k].event.number <= c.since;
        if k < |s.out| {
          assert s.out[k] == s'.out[k];
        }
      }
    }
  }

  /** A printed live event lies past the cursor. */
  lemma StartHandle(c: Config, s: State, e: Event)
    requires StartOk(c, s) && c.subscribedAt <= |s.history| && e.number > c.subscribedAt && s.from.Some?
    ensures StartOk(c, Handle(c, s, e))
  {
    hide StartOk;
    StartPrints(c, s, Handle(c, s, e));
  }

  /** The lines of an accepted page, one by one. */
  lemma PagePrinted(c: Config, s: State, k: nat)
    requires s.phase.Await? && s.reply.Some? && !s.reply.value.reset
    requires |s.out| <= k < |DoPage(c, s).out| && DoPage(c, s).out[k].Printed?
    ensures DoPage(c, s).out[k].event in s.reply.value.events
  {}

  /** A page after a positive cursor prints only past it. */
  lemma StartPageLater(c: Config, s: State)
    requires Inv(c, s) && StartOk(c, s) && OwnCursor(c)
    requires s.phase.Await? && s.reply.Some? && !s.reply.value.reset && !FromZero(s)
    ensures StartOk(c, DoPage(c, s))
  {
    var p, s' := s.reply.value, DoPage(c, s);
    AnswerConsumed(c, s);
    PageEvents(c, s, p);
    assert s.cursor > 0 && EffectiveCursor(s.cursor, s.staleStream, p.lastSeq) == s.cursor;
    assert s.cursor < c.since ==> RestartedBelow(c, s);
    assert c.subscribedAt <= |s.history|;
    hide Inv, PageOk, RestartedBelow, StartOk;
    forall k | |s.out| <= k < |s'.out| && s'.out[k].Printed?
      ensures s'.out[k].event.number > c.since || RestartedBelow(c, s)
    {
      PagePrinted(c, s, k);
    }
    if p.events != [] {
      assert p.events[|p.events| - 1] in p.events;
    }
    StartPrints(c, s, s');
  }

  /** A page from zero prints below the cursor if and only if the ring still
      held something to print there. */
  lemma PageBelow(c: Config, s: State)
    requires Inv(c, s) && OwnCursor(c) && s.phase.Await? && s.reply.Some? && !s.reply.value.reset && FromZero(s)
    ensures var p := s.reply.value;
            (exists e :: e in p.events && e.number <= c.since) <==>
            SomeMatch(s.history, c.filter, Evicted(p.lastSeq, c.bufferSize), c.since)
  {
    var p, gone := s.reply.value, Evicted(s.reply.value.lastSeq, c.bufferSize);
    AnswerConsumed(c, s);
    assert HistoryOk(c, s) && Resolves(s.history, c.bufferSize, c.filter, 0, p) && c.since <= p.lastSeq;
    hide Inv, PageOk, Select, Matches;
    if e :| e in p.events && e.number <= c.since {
      SelectedIsWanted(s.history, Replay(c.filter), gone, Upto(p), e);
    }
    if i :| gone <= i < c.since && i < |s.history| && Matches(c.filter, s.history[i]) {
      if i < Upto(p) {
        WantedIsSelected(s.history, Replay(c.filter), gone, Upto(p), i);
        assert s.history[i] in p.events;
      } else {
        assert p.events[|p.events| - 1] in p.events;
      }
    }
  }

  lemma EarlyPrints(c: Config, s: State)
    requires s.phase.Await? && s.reply.Some? && !s.reply.value.reset && !PrintedBelow(c, s)
    ensures PrintedBelow(c, DoPage(c, s)) <==> exists e :: e in s.reply.value.events && e.number <= c.since
  {
    var p, s' := s.reply.value, DoPage(c, s);
    assert s'.out == PageLines(s, p) + Lines(p.events);
    assert forall k :: 0 <= k < |s.out| ==> s'.out[k] == s.out[k];
    if e :| e in p.events && e.number <= c.since {
      var k :| 0 <= k < |p.events| && p.events[k] == e;
      assert s'.out[|PageLines(s, p)| + k] == Printed(e);
    }
    if PrintedBelow(c, s') {
      var k :| 0 <= k < |s'.out| && s'.out[k].Printed? && s'.out[k].event.number <= c.since;
      PagePrinted(c, s, k);
    }
  }

  lemma EarlyRestarts(c: Config, s: State)
    requires s.phase.Await? && s.reply.Some? && !s.reply.value.reset && FromZero(s) && EarlyMarker(s)
    requires !RestartedBelow(c, s) && c.since > 0
    ensures RestartedBelow(c, DoPage(c, s)) <==>
            SomeMatch(s.history, c.filter, Evicted(s.reply.value.lastSeq, c.bufferSize), c.since)
  {
    hide SomeMatch, Evicted;
    var n, s', last := s.reply.value.lastSeq, DoPage(c, s), |s.out| - 1;
    assert s'.bounds == s.bounds[last := n] && s'.history == s.history;
    if SomeMatch(s.history, c.filter, Evicted(n, c.bufferSize), c.since) {
      assert last in s'.bounds && s'.bounds[last] == n;
    }
    assert forall j :: j in s'.bounds && j != last ==> j in s.bounds && s.bounds[j] == s'.bounds[j];
  }

  /** A page from zero comes after one early marker and nothing printed. */
  lemma NothingYet(c: Config, s: State)
    requires Inv(c, s) && StartOk(c, s) && OwnCursor(c) && s.phase.Await? && FromZero(s)
    ensures EarlyMarker(s) && s.lastSeq == 0 && BoundsOk(s) && !PrintedBelow(c, s) && !RestartedBelow(c, s)
  {
    assert CursorOk(c, s) && OutputOk(c, s);
    hide Inv, SomeMatch, RestartedBelow, MarkersOk, Settled, LinkOk, ChainOk, HeldOk, SignalOk;
  }

  /** A page from zero decides both sides. */
  lemma StartPageEarly(c: Config, s: State)
    requires Inv(c, s) && StartOk(c, s) && OwnCursor(c)
    requires s.phase.Await? && s.reply.Some? && !s.reply.value.reset && FromZero(s)
    ensures StartOk(c, DoPage(c, s))
  {
    hide Inv, SomeMatch, PrintedBelow, RestartedBelow, BoundsOk;
    NothingYet(c, s);
    PageBelow(c, s);
    EarlyPrints(c, s);
    EarlyRestarts(c, s);
    PageBounds(c, s);
    var p := s.reply.value;
    assert p.events != [] ==> p.events[|p.events| - 1] in p.events;
  }

  /** For a cursor that is not the stream's own nothing is claimed but the shape
      of the markers. */
  lemma NoResetOfOwn(c: Config, s: State)
    requires Inv(c, s) && StartOk(c, s) && OwnCursor(c) && s.phase.Await? && s.reply.Some?
    ensures !s.reply.value.reset
  {
    AnswerConsumed(c, s);
    assert HistoryOk(c, s) && CursorOk(c, s) && PageOk(c, s, s.reply.value);
    hide Resolves, SomeMatch, Complete, Inv, RestartedBelow, PrintedBelow;
  }

  lemma PageBounds(c: Config, s: State)
    requires BoundsOk(s) && s.phase.Await? && s.reply.Some? && (FromZero(s) ==> EarlyMarker(s))
    ensures BoundsOk(DoPage(c, s))
  {
    var s' := DoPage(c, s);
    assert forall k :: 0 <= k < |s.out| ==> s'.out[k] == s.out[k];
  }

  lemma StartPage(c: Config, s: State)
    requires Inv(c, s) && StartOk(c, s) && s.phase.Await? && s.reply.Some?
    ensures StartOk(c, DoPage(c, s))
  {
    assert FromZero(s) ==> EarlyMarker(s);
    hide Inv, DoPage;
    if !OwnCursor(c) {
      hide PrintedBelow, RestartedBelow, BoundsOk;
      PageBounds(c, s);
    } else {
      NoResetOfOwn(c, s);
      hide StartOk;
      if FromZero(s) {
        StartPageEarly(c, s);
      } else {
        StartPageLater(c, s);
      }
    }
  }

  lemma StartPoll(c: Config, s: State)
    requires StartOk(c, s) && LateOk(c, s) && c.subscribedAt <= |s.history| && s.from.Some? && s.phase.Poll?
    ensures StartOk(c, DoPoll(c, s))
  {
    hide StartOk, Handle;
    if s.dropped == 0 && Held(s).Some? {
      StartHandle(c, s, Held(s).value);
    } else {
      var s' := DoPoll(c, s);
      StartSame(c, s, s', s'.out[|s.out|..]);
    }
  }

  lemma StartConsumer(c: Config, s: State, step: Step)
    requires Inv(c, s) && StartOk(c, s) && LateOk(c, s) && Enabled(c, s, step)
    requires step.ConsumerPoll? || step.ConsumerEvent? || step.ConsumerTake?
    ensures StartOk(c, Apply(c, s, step))
  {
    Begun(c, s);
    hide Inv, StartOk, LateOk, FlagAllowed, DoPoll, DoEvent, DoTakeSignal;
    match step
    case ConsumerPoll => StartPoll(c, s);
    case ConsumerEvent => StartEvent(c, s);
    case ConsumerTake => StartTake(c, s);
  }

  /** Outside of the first paging, a page has been accepted. */
  lemma Begun(c: Config, s: State)
    requires HistoryOk(c, s) && CursorOk(c, s)
    ensures c.subscribedAt <= |s.history|
    ensures s.phase.Poll? || s.phase.Choose? || s.phase.TakeSignal? ==> s.from.Some?
  {}

  lemma StartEvent(c: Config, s: State)
    requires StartOk(c, s) && LateOk(c, s) && c.subscribedAt <= |s.history| && s.from.Some?
    requires s.phase.Choose? && s.queue != []
    ensures StartOk(c, DoEvent(c, s))
  {
    assert s.queue[0].event.number > c.subscribedAt;
    hide StartOk, LateOk, Handle;
    if s.queue[0].droppedBefore > 0 {
      var s' := DoEvent(c, s);
      StartSame(c, s, s', s'.out[|s.out|..]);
    } else {
      var s0 := s.(queue := s.queue[1..]);
      StartSame(c, s, s0, []);
      StartHandle(c, s0, s.queue[0].event);
    }
  }

  lemma StartTake(c: Config, s: State)
    requires StartOk(c, s) && c.subscribedAt <= |s.history| && s.from.Some? && s.phase.TakeSignal?
    ensures StartOk(c, DoTakeSignal(s))
  {
    hide StartOk;
    var s' := DoTakeSignal(s);
    StartSame(c, s, s', s'.out[|s.out|..]);
  }

  /** Every other step leaves output, cursor and start as they are. */
  lemma StartOthers(c: Config, s: State, step: Step)
    requires StartOk(c, s) && c.subscribedAt <= |s.history| && Enabled(c, s, step)
    requires !step.ConsumerPage? && !step.ConsumerPoll? && !step.ConsumerEvent? && !step.ConsumerTake?
    ensures StartOk(c, Apply(c, s, step))
  {
    hide StartOk, FlagAllowed, PageWith, Categorize, Wants;
    var s' := Apply(c, s, step);
    assert s.out + [] == s.out;
    match step
    case Ingest(_, _) => StartSame(c, s, s', []);
    case Disconnect => StartSame(c, s, s', []);
    case Snapshot => StartSame(c, s, s', []);
    case Answer(_) => StartSame(c, s, s', []);
    case ReaderTake => StartSame(c, s, s', []);
    case ReaderOffer => StartSame(c, s, s', []);
    case ReaderCount => StartSame(c, s, s', []);
    case ReaderNotify => StartSame(c, s, s', []);
    case ConsumerAsk => StartSame(c, s, s', []);
    case ConsumerCheck => StartSame(c, s, s', []);
    case ConsumerSignal => StartSame(c, s, s', []);
    case ConsumerStop => StartSame(c, s, s', []);
  }

  lemma StartStep(c: Config, s: State, step: Step)
    requires Inv(c, s) && StartOk(c, s) && LateOk(c, s) && Enabled(c, s, step)
    ensures StartOk(c, Apply(c, s, step))
  {
    assert c.subscribedAt <= |s.history|;
    hide Inv, StartOk, LateOk, DoPage, DoPoll, DoEvent, DoTakeSignal, FlagAllowed, DoIngest, DoAnswer, DoTake, DoOffer;
    match step
    case ConsumerPage => StartPage(c, s);
    case ConsumerPoll => StartConsumer(c, s, step);
    case ConsumerEvent => StartConsumer(c, s, step);
    case ConsumerTake => StartConsumer(c, s, step);
    case _ => StartOthers(c, s, step);
  }

  // -------------------------------------------------------------- every run

  ghost predicate AllOk(c: Config, s: State) {
    Inv(c, s) && CountOk(s) && LateOk(c, s) && StartOk(c, s)
  }

  lemma AllInit(c: Config, s: State)
    requires Init(c, s)
    ensures AllOk(c, s)
  {
    InitHolds(c, s);
  }

  lemma {:induction false} AllRun(c: Config, s: State, steps: seq<Step>)
    requires AllOk(c, s)
    ensures AllOk(c, Run(c, s, steps))
    decreases |steps|
  {
    assert HistoryOk(c, s) && LinkOk(c, s);
    hide Inv, HistoryOk, LinkOk, CountOk, LateOk, StartOk, Apply, Enabled;
    if steps != [] {
      if Enabled(c, s, steps[0]) {
        StepKeeps(c, s, steps[0]);
        CountStep(c, s, steps[0]);
        LateStep(c, s, steps[0]);
        StartStep(c, s, steps[0]);
      }
      AllRun(c, if Enabled(c, s, steps[0]) then Apply(c, s, steps[0]) else s, steps[1..]);
    }
  }

  // ----------------------------------------------------------------- theorems

  /** Conservation: every overflow is reported by one client marker or is still
      on its way to one, never both, never twice. */
  lemma OverflowsAreCounted(c: Config, s0: State, steps: seq<Step>)
    requires Init(c, s0)
    ensures var s := Run(c, s0, steps); Reported(s.out) + Outstanding(s) == s.episodes
  {
    hide Inv, LateOk, StartOk, Reported, Outstanding;
    AllInit(c, s0);
    AllRun(c, s0, steps);
  }

  /** Gap markers are never spurious. */
  lemma GapsAreGenuine(c: Config, s0: State, steps: seq<Step>, j: nat)
    requires Init(c, s0)
    requires j < |Run(c, s0, steps).out| && Run(c, s0, steps).out[j].Gap?
    requires var line := Run(c, s0, steps).out[j]; line.reset || line.clientDropped > 0 || EventRing.Unambiguous(c.filter)
    ensures Genuine(c, Run(c, s0, steps), j)
  {
    AllInit(c, s0);
    AllRun(c, s0, steps);
    var s := Run(c, s0, steps);
    assert MarkersOk(c, s);
    hide Inv, LateOk, StartOk, MarkersOk, Reported, Outstanding, SomeMatch, EventRing.Unambiguous;
    ReportedPrefix(s.out, j + 1);
    assert Caused(c, s, s.out[j]) by {
      CauseOf(c, s, j);
    }
  }

  lemma CauseOf(c: Config, s: State, j: nat)
    requires MarkersOk(c, s) && j < |s.out| && s.out[j].Gap?
    ensures Caused(c, s, s.out[j])
  {}

  lemma ReportedPrefix(out: seq<Line>, k: nat)
    requires k <= |out|
    ensures Reported(out[..k]) <= Reported(out)
  {
    assert out[..k] + out[k..] == out;
    ReportedAppend(out[..k], out[k..]);
  }

  /** What the cursor asked to skip is printed if and only if some recovery,
      begun before anything was delivered, restarted from zero while the ring
      still held such an event. */
  lemma SkipsExactlyUnlessRestarted(c: Config, s0: State, steps: seq<Step>)
    requires Init(c, s0) && OwnCursor(c)
    ensures var s := Run(c, s0, steps); PrintedBelow(c, s) <==> RestartedBelow(c, s)
  {
    hide Inv, CountOk, LateOk, PrintedBelow, RestartedBelow;
    AllInit(c, s0);
    AllRun(c, s0, steps);
  }

  /** In particular, without a client marker that reports nothing delivered yet,
      only events past the cursor are printed. */
  lemma SkipsWithoutEarlyMarker(c: Config, s0: State, steps: seq<Step>, k: nat)
    requires Init(c, s0) && OwnCursor(c)
    requires var s := Run(c, s0, steps);
             k < |s.out| && s.out[k].Printed? && forall j :: 0 <= j < |s.out| ==> !EarlyLine(s.out[j])
    ensures Run(c, s0, steps).out[k].event.number > c.since
  {
    hide Inv, CountOk, LateOk;
    AllInit(c, s0);
    AllRun(c, s0, steps);
    var s := Run(c, s0, steps);
    assert StartOk(c, s);
    assert s.out[k].event.number <= c.since ==> PrintedBelow(c, s);
  }
}
