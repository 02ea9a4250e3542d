/** No event is lost silently and none is printed twice: the invariant of the
    follow machine, its preservation step by step, and the theorems. */
module FollowProof {
  import opened Events
  import opened Follow
  import opened Wrappers
  import EventRing

  // ------------------------------------------------------------ the invariant

  ghost predicate HistoryOk(c: Config, s: State) {
    && c.bufferSize > 0
    && Numbered(s.history) && Categorized(s.history)
    && c.subscribedAt <= s.read <= s.sent <= |s.history|
    && (s.connected ==> s.sent == |s.history|)
    && s.lastSeq <= s.resolved <= |s.history| && s.debt <= |s.history|
  }

  function Pushes(wire: seq<Message>): seq<Event> {
    if wire == [] then []
    else (if wire[0].Push? then [wire[0].event] else []) + Pushes(wire[1..])
  }

  function Responses(wire: seq<Message>): seq<Page> {
    if wire == [] then []
    else (if wire[0].Response? then [wire[0].page] else []) + Responses(wire[1..])
  }

  /** The link carries exactly the wanted events that were sent and not read. */
  ghost predicate LinkOk(c: Config, s: State) {
    && s.read <= s.sent <= |s.history|
    && Pushes(s.wire) == Select(s.history, Live(c.filter), s.read, s.sent)
  }

  /** What is known of an answer to the outstanding request. */
  ghost predicate PageOk(c: Config, s: State, p: Page) {
    var eff := EffectiveCursor(s.cursor, s.staleStream, p.lastSeq);
    && s.debt <= p.lastSeq <= |s.history| && s.resolved <= p.lastSeq && c.subscribedAt <= p.lastSeq
    && p.reset == Resets(s.cursor, s.staleStream, p.lastSeq)
    && Resolves(s.history, c.bufferSize, c.filter, eff, p)
    && (Complete(c, s) && eff > 0 && SomeMatch(s.history, c.filter, eff, Evicted(p.lastSeq, c.bufferSize)) ==> p.dropped)
    && (p.dropped ==> eff > 0)
    && (p.dropped && EventRing.Unambiguous(c.filter) ==>
          SomeMatch(s.history, c.filter, eff, Evicted(|s.history|, c.bufferSize)))
  }

  function Answers(s: State): seq<Page> {
    Responses(s.wire) + if s.reply.Some? then [s.reply.value] else []
  }

  /** At most one request is outstanding, only while the consumer awaits it. */
  ghost predicate RequestsOk(c: Config, s: State) {
    && (forall p :: p in Answers(s) ==> PageOk(c, s, p))
    && |Answers(s)| + (if s.server.NoRequest? then 0 else 1) <= (if s.phase.Await? then 1 else 0)
    && (s.server.Asked? ==> s.server.since == s.cursor && s.server.staleStream == s.staleStream)
    && (s.server.Snapped? ==>
          && s.server.since == s.cursor && s.server.staleStream == s.staleStream
          && s.debt <= s.server.n <= |s.history| && s.resolved <= s.server.n && c.subscribedAt <= s.server.n)
  }

  /** Once stopped, the consumer may leave a request behind. */
  ghost predicate AskingOk(c: Config, s: State) {
    s.phase.Stopped? || RequestsOk(c, s)
  }

  ghost predicate Paging(s: State) {
    s.phase.Request? || s.phase.Await?
  }

  ghost predicate CursorOk(c: Config, s: State) {
    && (s.staleStream ==> c.staleStream)
    && (s.from.None? ==> s.lastSeq == 0 && s.resolved == 0 && (Paging(s) || s.phase.Stopped?))
    && (s.from.None? && s.cursor > 0 ==> s.cursor == c.since)
    && (s.from.Some? ==> !s.staleStream)
    && (Paging(s) && s.from.Some? ==> s.cursor == s.lastSeq)
    && (forall j :: j in s.bounds ==> j < |s.out|)
    && (Paging(s) && FromZero(s) ==> EarlyMarker(s))
  }

  /** The marker that a recovery from zero has just printed. */
  ghost predicate EarlyMarker(s: State) {
    && s.out != []
    && var j := |s.out| - 1;
       && j !in s.bounds && s.out[j].Gap? && !s.out[j].reset && s.out[j].clientDropped > 0
       && s.out[j].to == 0 && s.out[j].at <= s.debt
  }

  predicate OnTarget(f: Filter, e: Event) {
    Subscribed(f.category, e.category) && (f.target == "" || e.target == f.target)
  }

  /** The printed events come from the history, on target and in order. */
  ghost predicate OutOk(f: Filter, h: seq<Event>, out: seq<Line>, last: nat) {
    && InOrder(out)
    && (forall j :: 0 <= j < |out| && out[j].Printed? ==>
          var e := out[j].event;
          0 < e.number <= last && e.number <= |h| && h[e.number - 1] == e && OnTarget(f, e))
  }

  ghost predicate OutputOk(c: Config, s: State) {
    OutOk(c.filter, s.history, s.out, s.lastSeq)
  }

  /** Reset and ring markers have their cause. */
  ghost predicate Caused(c: Config, s: State, line: Line)
    requires line.Gap?
  {
    if line.reset then c.staleStream || c.since > c.subscribedAt
    else line.clientDropped == 0 && EventRing.Unambiguous(c.filter) ==>
      SomeMatch(s.history, c.filter, line.to, Evicted(|s.history|, c.bufferSize))
  }

  ghost predicate MarkersOk(c: Config, s: State) {
    forall j :: 0 <= j < |s.out| && s.out[j].Gap? ==> Caused(c, s, s.out[j])
  }

  /** With complete tables, everything up to the settled position is accounted for. */
  ghost predicate Settled(c: Config, s: State) {
    Complete(c, s) ==> AllAccounted(c, s, s.resolved)
  }

  /** Walking the queue from `cur`: an untagged element certifies that nothing
      wanted lies between the position before it and itself. */
  ghost predicate Linked(h: seq<Event>, q: Query, cur: nat, queue: seq<Tagged>)
    decreases |queue|
  {
    queue == [] ||
    (var item := queue[0];
     && 0 < item.event.number <= |h| && h[item.event.number - 1] == item.event && Wants(q, item.event)
     && (item.droppedBefore > 0 || NoneWanted(h, q, cur, item.event.number - 1))
     && Linked(h, q, Max(cur, item.event.number), queue[1..]))
  }

  function Tail(cur: nat, queue: seq<Tagged>): nat
    decreases |queue|
  {
    if queue == [] then cur else Tail(Max(cur, queue[0].event.number), queue[1..])
  }

  function Base(s: State): nat {
    Max(s.resolved, s.debt)
  }

  ghost predicate ReaderAt(c: Config, s: State) {
    s.reader.Holding? ==>
      var e := s.reader.item.event;
      0 < s.read == e.number <= |s.history| && s.history[s.read - 1] == e && Wants(Live(c.filter), e)
  }

  /** The same certificate across the read loop: past the queue's tail nothing
      wanted was taken off the link, or some evidence of a drop is held. */
  ghost predicate Certified(c: Config, s: State) {
    var q := Live(c.filter);
    var tail := Tail(Base(s), s.queue);
    match s.reader
    case Holding(item) => item.droppedBefore > 0 || NoneWanted(s.history, q, tail, item.event.number - 1)
    case Counting => true
    case _ => s.dropped > 0 || NoneWanted(s.history, q, tail, s.read)
  }

  function Held(s: State): Option<Event> {
    match s.phase
    case Request(Resuming(held)) => held
    case Await(Resuming(held)) => held
    case Poll(Resuming(held)) => held
    case _ => None
  }

  /** A tagged event set aside during recovery lies within the recovery's debt. */
  ghost predicate HeldOk(c: Config, s: State) {
    Held(s).Some? ==>
      var e := Held(s).value;
      0 < e.number <= Base(s) && e.number <= |s.history| && s.history[e.number - 1] == e && Wants(Live(c.filter), e)
  }

  ghost predicate ChainOk(c: Config, s: State) {
    && Linked(s.history, Live(c.filter), Base(s), s.queue)
    && ReaderAt(c, s) && Certified(c, s)
    && (!Paging(s) && !s.phase.Stopped? ==> s.debt <= s.resolved)
  }

  /** A waiting counter is announced by the token, or by whoever is about to
      place it or to read the counter. */
  ghost predicate SignalOk(s: State) {
    s.dropped > 0 ==> s.token || s.reader.Notifying? || s.phase.TakeSignal? || s.phase.Stopped?
  }

  ghost predicate Inv(c: Config, s: State) {
    && HistoryOk(c, s) && LinkOk(c, s) && AskingOk(c, s) && CursorOk(c, s) && OutputOk(c, s)
    && Settled(c, s) && ChainOk(c, s) && HeldOk(c, s) && SignalOk(s) && MarkersOk(c, s)
  }

  // ---------------------------------------------------------- helper lemmas

  lemma {:induction false} LinkedMono(h: seq<Event>, q: Query, a: nat, b: nat, queue: seq<Tagged>)
    requires a <= b && Linked(h, q, a, queue)
    ensures Linked(h, q, b, queue) && Tail(a, queue) <= Tail(b, queue)
    decreases |queue|
  {
    if queue != [] {
      LinkedMono(h, q, Max(a, queue[0].event.number), Max(b, queue[0].event.number), queue[1..]);
    }
  }

  lemma {:induction false} LinkedSnoc(h: seq<Event>, q: Query, cur: nat, queue: seq<Tagged>, item: Tagged)
    requires Linked(h, q, cur, queue)
    requires 0 < item.event.number <= |h| && h[item.event.number - 1] == item.event && Wants(q, item.event)
    requires item.droppedBefore > 0 || NoneWanted(h, q, Tail(cur, queue), item.event.number - 1)
    ensures Linked(h, q, cur, queue + [item])
    ensures Tail(cur, queue + [item]) == Max(Tail(cur, queue), item.event.number)
    decreases |queue|
  {
    if queue != [] {
      assert (queue + [item])[1..] == queue[1..] + [item];
      LinkedSnoc(h, q, Max(cur, queue[0].event.number), queue[1..], item);
    }
  }

  lemma {:induction false} LinkedGrown(h: seq<Event>, e: Event, q: Query, cur: nat, queue: seq<Tagged>)
    requires Linked(h, q, cur, queue)
    ensures Linked(h + [e], q, cur, queue)
    decreases |queue|
  {
    if queue != [] {
      LinkedGrown(h, e, q, Max(cur, queue[0].event.number), queue[1..]);
    }
  }

  lemma {:induction false} WireSnoc(wire: seq<Message>, m: Message)
    ensures Pushes(wire + [m]) == Pushes(wire) + if m.Push? then [m.event] else []
    ensures Responses(wire + [m]) == Responses(wire) + if m.Response? then [m.page] else []
  {
    if wire != [] {
      assert (wire + [m])[1..] == wire[1..] + [m];
      WireSnoc(wire[1..], m);
    }
  }

  lemma CausedGrown(c: Config, s: State, s': State, line: Line)
    requires line.Gap? && Caused(c, s, line) && s.history <= s'.history
    ensures Caused(c, s', line)
  {
    if !line.reset && line.clientDropped == 0 && EventRing.Unambiguous(c.filter) {
      var i :| line.to <= i < Evicted(|s.history|, c.bufferSize) && i < |s.history| && Matches(c.filter, s.history[i]);
      assert Matches(c.filter, s'.history[i]);
    }
  }

  /** Tables that are complete later were complete before. */
  lemma CompleteBefore(c: Config, s: State, s': State)
    requires s.history <= s'.history && Complete(c, s')
    ensures Complete(c, s)
  {
    if c.filter.target != "" {
      EventRing.KeysGrown(if c.filter.category == "" then EventRing.ByTarget else EventRing.ByPair, s.history, s'.history,
                          Evicted(|s.history|, c.bufferSize), Evicted(|s'.history|, c.bufferSize));
    }
  }

  /** Output and reaches only grow. */
  ghost predicate Follows(s: State, s': State) {
    && s.history <= s'.history && s.out <= s'.out
    && forall j :: 0 <= j < |s.out| && s.out[j].Gap? ==> Reach(s.out, s.bounds, j) <= Reach(s'.out, s'.bounds, j)
  }

  lemma AccountedGrown(c: Config, s: State, s': State, i: nat)
    requires i < |s.history| && Follows(s, s')
    requires Accounted(c, s, i)
    ensures Accounted(c, s', i)
  {
    if Printed(s.history[i]) !in s.out {
      var j: nat :| Covers(s.out, s.bounds, j, i + 1);
      assert Covers(s'.out, s'.bounds, j, i + 1);
    }
  }

  lemma SettledGrown(c: Config, s: State, s': State)
    requires Follows(s, s') && s'.from == s.from && s'.resolved == s.resolved <= |s.history|
    requires Settled(c, s)
    ensures Settled(c, s')
  {
    if Complete(c, s') && s.from.Some? {
      CompleteBefore(c, s, s');
      forall i | s.from.value <= i < s.resolved && i < |s'.history| && Matches(c.filter, s'.history[i])
        ensures Accounted(c, s', i)
      {
        AccountedGrown(c, s, s', i);
      }
    }
  }

  // ------------------------------------------------------- daemon and link

  lemma PageOkGrown(c: Config, s: State, s': State, e: Event, p: Page)
    requires s'.history == s.history + [e] && p.lastSeq <= |s.history|
    requires s'.(history := s.history, wire := s.wire, sent := s.sent) == s
    requires PageOk(c, s, p)
    ensures PageOk(c, s', p)
  {
    var eff := EffectiveCursor(s.cursor, s.staleStream, p.lastSeq);
    if Complete(c, s') {
      CompleteBefore(c, s, s');
    }
    hide Complete;
    SelectGrown(s.history, s'.history, Replay(c.filter), Max(Evicted(p.lastSeq, c.bufferSize), eff), Upto(p));
  }

  lemma IngestLink(c: Config, s: State, e: Event)
    requires LinkOk(c, s) && (s.connected ==> s.sent == |s.history|)
    ensures LinkOk(c, DoIngest(c, s, e))
    ensures Responses(DoIngest(c, s, e).wire) == Responses(s.wire)
  {
    var q := Live(c.filter);
    SelectGrown(s.history, s.history + [e], q, s.read, s.sent);
    SelectSnoc(s.history + [e], q, s.read, |s.history|);
    WireSnoc(s.wire, Push(e));
    assert s.wire + [] == s.wire;
  }

  lemma IngestRequests(c: Config, s: State, e: Event)
    requires RequestsOk(c, s)
    requires Responses(DoIngest(c, s, e).wire) == Responses(s.wire)
    ensures RequestsOk(c, DoIngest(c, s, e))
  {
    forall p | PageOk(c, s, p) ensures PageOk(c, DoIngest(c, s, e), p) {
      PageOkGrown(c, s, DoIngest(c, s, e), e, p);
    }
  }

  lemma IngestChain(c: Config, s: State, e: Event)
    requires ChainOk(c, s) && s.read <= |s.history|
    ensures ChainOk(c, DoIngest(c, s, e))
  {
    hide Wants, Linked, Tail;
    LinkedGrown(s.history, e, Live(c.filter), Base(s), s.queue);
  }

  lemma IngestOutput(c: Config, s: State, e: Event)
    requires OutputOk(c, s) && MarkersOk(c, s) && CursorOk(c, s)
    ensures var s' := DoIngest(c, s, e); OutputOk(c, s') && MarkersOk(c, s') && CursorOk(c, s')
  {
    hide OnTarget, Wants, Caused;
    var s' := DoIngest(c, s, e);
    forall j | 0 <= j < |s.out| && s.out[j].Gap? ensures Caused(c, s', s.out[j]) {
      CausedGrown(c, s, s', s.out[j]);
    }
  }

  lemma IngestKeeps(c: Config, s: State, e: Event)
    requires Inv(c, s) && e.number == |s.history| + 1 && Known(e.category)
    ensures Inv(c, DoIngest(c, s, e))
  {
    hide LinkOk, RequestsOk, CursorOk, OutputOk, Settled, ChainOk, MarkersOk, Wants;
    IngestLink(c, s, e);
    if !s.phase.Stopped? {
      IngestRequests(c, s, e);
    }
    IngestChain(c, s, e);
    IngestOutput(c, s, e);
    SettledGrown(c, s, DoIngest(c, s, e));
  }

  lemma AnswerOk(c: Config, s: State, dropped: bool)
    requires HistoryOk(c, s) && RequestsOk(c, s) && s.server.Snapped? && s.server.n <= |s.history|
    requires FlagAllowed(c, s, dropped)
    ensures RequestsOk(c, DoAnswer(c, s, dropped))
  {
    var s' := DoAnswer(c, s, dropped);
    var n := s.server.n;
    var eff := EffectiveCursor(s.cursor, s.staleStream, n);
    var page := PageWith(s.history, n, c.bufferSize, c.filter, s.cursor, c.limit, s.staleStream, dropped);
    PageResolves(s.history, n, c.bufferSize, c.filter, s.cursor, c.limit, s.staleStream, dropped);
    assert PageOk(c, s', page);
    WireSnoc(s.wire, Response(page));
  }

  // ----------------------------------------------------------- the read loop

  lemma NoneWantedJoin(h: seq<Event>, q: Query, a: nat, b: nat, d: nat)
    requires NoneWanted(h, q, a, b) && NoneWanted(h, q, b, d)
    ensures NoneWanted(h, q, a, d)
  {}

  lemma TakeLink(c: Config, s: State)
    requires HistoryOk(c, s) && LinkOk(c, s) && s.wire != [] && s.wire[0].Push?
    ensures var e := s.wire[0].event;
            && s.read < e.number <= s.sent && s.history[e.number - 1] == e && Wants(Live(c.filter), e)
            && NoneWanted(s.history, Live(c.filter), s.read, e.number - 1)
            && Pushes(s.wire[1..]) == Select(s.history, Live(c.filter), e.number, s.sent)
  {
    SelectHead(s.history, Live(c.filter), s.read, s.sent);
    assert Pushes(s.wire) == [s.wire[0].event] + Pushes(s.wire[1..]);
  }

  lemma TakeChain(c: Config, s: State)
    requires HistoryOk(c, s) && LinkOk(c, s) && ChainOk(c, s)
    requires s.reader.Idle? && s.wire != []
    ensures ChainOk(c, DoTake(s))
  {
    hide Linked, Tail, Wants, Select, Pushes;
    if s.wire[0].Push? {
      TakeLink(c, s);
      if s.dropped == 0 {
        NoneWantedJoin(s.history, Live(c.filter), Tail(Base(s), s.queue), s.read, s.wire[0].event.number - 1);
      }
    }
  }

  /** The parts of the invariant that the read loop's own variables do not enter. */
  lemma ReaderFrame(c: Config, s: State, s': State)
    requires Inv(c, s)
    requires s' == s.(wire := s'.wire, reply := s'.reply, reader := s'.reader, queue := s'.queue,
                      dropped := s'.dropped, token := s'.token, read := s'.read, episodes := s'.episodes)
    requires s.phase.Stopped? || Answers(s') == Answers(s)
    ensures AskingOk(c, s') && CursorOk(c, s') && OutputOk(c, s')
    ensures Settled(c, s') && MarkersOk(c, s') && HeldOk(c, s')
  {
    ReaderAsks(c, s, s');
    hide AskingOk, OutputOk, LinkOk, ChainOk, SignalOk;
    assert HeldOk(c, s');
    ReaderCauses(c, s, s');
    hide MarkersOk, HeldOk;
    SettledGrown(c, s, s');
  }

  lemma ReaderAsks(c: Config, s: State, s': State)
    requires AskingOk(c, s) && OutputOk(c, s) && s'.phase == s.phase && (s.phase.Stopped? || Answers(s') == Answers(s))
    requires s'.history == s.history && s'.out == s.out && s'.cursor == s.cursor && s'.lastSeq == s.lastSeq
    requires s'.staleStream == s.staleStream && s'.server == s.server && s'.from == s.from && s'.resolved == s.resolved
    requires s'.bounds == s.bounds && s'.debt == s.debt && s'.sent == s.sent && s'.connected == s.connected
    ensures AskingOk(c, s') && OutputOk(c, s')
  {
    forall p | PageOk(c, s, p) ensures PageOk(c, s', p) {}
  }

  lemma ReaderCauses(c: Config, s: State, s': State)
    requires MarkersOk(c, s) && s'.history == s.history && s'.out == s.out
    ensures MarkersOk(c, s')
  {
    forall j | 0 <= j < |s.out| && s.out[j].Gap? ensures Caused(c, s', s.out[j]) {
      CausedGrown(c, s, s', s.out[j]);
    }
  }

  lemma TakeAnswers(s: State)
    requires s.reader.Idle? && s.wire != []
    requires s.wire[0].Response? ==> |Answers(s)| <= 1
    ensures Answers(DoTake(s)) == Answers(s)
  {
    if s.wire[0].Push? {
      assert Responses(s.wire) == Responses(s.wire[1..]);
    } else {
      assert Responses(s.wire) == [s.wire[0].page] + Responses(s.wire[1..]);
    }
  }

  lemma TakeBounds(c: Config, s: State)
    requires HistoryOk(c, s) && LinkOk(c, s) && s.reader.Idle? && s.wire != []
    ensures HistoryOk(c, DoTake(s)) && LinkOk(c, DoTake(s))
  {
    if s.wire[0].Push? {
      TakeLink(c, s);
    } else {
      assert Pushes(s.wire) == Pushes(s.wire[1..]);
    }
  }

  lemma TakeKeeps(c: Config, s: State)
    requires Inv(c, s) && s.reader.Idle? && s.wire != []
    ensures Inv(c, DoTake(s))
  {
    hide LinkOk, PageOk, CursorOk, OutputOk, Settled, ChainOk, MarkersOk, HeldOk;
    TakeChain(c, s);
    TakeBounds(c, s);
    if !s.phase.Stopped? {
      TakeAnswers(s);
    }
    ReaderFrame(c, s, DoTake(s));
  }

  lemma OfferKeeps(c: Config, s: State)
    requires Inv(c, s) && s.reader.Holding?
    ensures Inv(c, DoOffer(s))
  {
    hide OutputOk, MarkersOk, Settled, PageOk, Select, CursorOk, HeldOk, AskingOk, Wants;
    if |s.queue| < QUEUE_CAPACITY {
      LinkedSnoc(s.history, Live(c.filter), Base(s), s.queue, s.reader.item);
    }
    ReaderFrame(c, s, DoOffer(s));
  }

  lemma CountKeeps(c: Config, s: State)
    requires Inv(c, s) && s.reader.Counting?
    ensures Inv(c, s.(dropped := s.dropped + 1, reader := Notifying))
  {
    ReaderFrame(c, s, s.(dropped := s.dropped + 1, reader := Notifying));
  }

  lemma NotifyKeeps(c: Config, s: State)
    requires Inv(c, s) && s.reader.Notifying?
    ensures Inv(c, s.(token := true, reader := Idle))
  {
    ReaderFrame(c, s, s.(token := true, reader := Idle));
  }

  // ------------------------------------------------------------ the consumer

  lemma {:induction false} TailAtLeast(cur: nat, queue: seq<Tagged>)
    ensures cur <= Tail(cur, queue)
    decreases |queue|
  {
    if queue != [] {
      TailAtLeast(Max(cur, queue[0].event.number), queue[1..]);
    }
  }

  /** A live consumer: nothing outstanding, past the first page. */
  ghost predicate Ready(c: Config, s: State) {
    && HistoryOk(c, s) && LinkOk(c, s) && OutputOk(c, s) && MarkersOk(c, s) && Settled(c, s) && (forall j :: j in s.bounds ==> j < |s.out|)
    && Answers(s) == [] && s.server.NoRequest?
    && s.from.Some? && !s.staleStream
  }

  lemma MarkerAppend(c: Config, s: State, s': State, line: Line)
    requires OutputOk(c, s) && MarkersOk(c, s) && !line.Printed?
    requires s'.out == s.out + [line] && s'.history == s.history && s'.lastSeq == s.lastSeq
    requires line.Gap? ==> Caused(c, s, line)
    ensures OutputOk(c, s') && MarkersOk(c, s')
  {
    forall j | 0 <= j < |s'.out| && s'.out[j].Gap? ensures Caused(c, s', s'.out[j]) {
      CausedGrown(c, s, s', s'.out[j]);
    }
  }

  lemma RecoveryCursor(c: Config, s: State, origin: Origin, clientDropped: nat)
    requires HistoryOk(c, s) && s.from.Some? && !s.staleStream && clientDropped > 0
    requires forall j :: j in s.bounds ==> j < |s.out|
    ensures CursorOk(c, StartRecovery(s, origin, clientDropped))
  {}

  lemma RecoveryChain(c: Config, s: State, origin: Origin, clientDropped: nat)
    requires HistoryOk(c, s) && ReaderAt(c, s) && Linked(s.history, Live(c.filter), |s.history|, s.queue)
    ensures ChainOk(c, StartRecovery(s, origin, clientDropped))
  {
    TailAtLeast(|s.history|, s.queue);
  }

  lemma RecoveryKeeps(c: Config, s: State, origin: Origin, clientDropped: nat)
    requires Ready(c, s) && SignalOk(s.(phase := Check))
    requires Linked(s.history, Live(c.filter), |s.history|, s.queue) && ReaderAt(c, s)
    requires clientDropped > 0
    requires HeldOk(c, s.(phase := Request(origin), debt := |s.history|))
    ensures Inv(c, StartRecovery(s, origin, clientDropped))
  {
    hide OutputOk, MarkersOk, Settled, CursorOk, Linked, ReaderAt, ChainOk, PageOk;
    var s' := StartRecovery(s, origin, clientDropped);
    RecoveryChain(c, s, origin, clientDropped);
    MarkerAppend(c, s, s', GapLine(s, false, clientDropped));
    SettledGrown(c, s, s');
    RecoveryCursor(c, s, origin, clientDropped);
    assert Answers(s') == Answers(s);
  }

  ghost predicate InHistory(c: Config, s: State, e: Event) {
    0 < e.number <= |s.history| && s.history[e.number - 1] == e && Wants(Live(c.filter), e)
  }

  lemma HandleOutput(c: Config, s: State, e: Event)
    requires OutputOk(c, s) && MarkersOk(c, s) && InHistory(c, s, e)
    ensures OutputOk(c, Handle(c, s, e)) && MarkersOk(c, Handle(c, s, e))
  {
    hide Caused, Subscribed, Matches;
    var s' := Handle(c, s, e);
    forall j | 0 <= j < |s'.out| && s'.out[j].Gap? ensures Caused(c, s', s'.out[j]) {
      CausedGrown(c, s, s', s.out[j]);
    }
  }

  /** Everything up to a handled event is settled: it is printed here, was
      printed before, or does not match; before it the chain has no gap. */
  lemma HandleAccounts(c: Config, s: State, e: Event)
    requires HistoryOk(c, s) && Settled(c, s) && InHistory(c, s, e)
    requires NoneWanted(s.history, Live(c.filter), s.resolved, e.number - 1)
    ensures Settled(c, Handle(c, s, e))
  {
    var s' := Handle(c, s, e);
    if Complete(c, s') && s.from.Some? {
      assert Complete(c, s);
      hide Complete;
      forall i | s.from.value <= i < s'.resolved && i < |s.history| && Matches(c.filter, s.history[i])
        ensures Accounted(c, s', i)
      {
        if i < s.resolved {
          AccountedGrown(c, s, s', i);
        } else {
          HandleReaches(c, s, e, i);
        }
      }
    }
  }

  /** What is matched past the settled part is the handled event itself. */
  lemma HandleReaches(c: Config, s: State, e: Event, i: nat)
    requires HistoryOk(c, s) && InHistory(c, s, e)
    requires NoneWanted(s.history, Live(c.filter), s.resolved, e.number - 1)
    requires s.resolved <= i < e.number && Matches(c.filter, s.history[i])
    ensures Printed(s.history[i]) in Handle(c, s, e).out
  {
    assert s.history[i] in s.history;
    ReplayIsSubscribed(c.filter, s.history[i]);
    hide Wants;
    assert i == e.number - 1;
    assert Handle(c, s, e).out[|s.out|] == Printed(e);
  }

  lemma HandleCursor(c: Config, s: State, e: Event)
    requires Ready(c, s) && InHistory(c, s, e) && SignalOk(s.(phase := Check))
    ensures var s' := Handle(c, s, e); HistoryOk(c, s') && LinkOk(c, s') && CursorOk(c, s') && SignalOk(s')
    ensures var s' := Handle(c, s, e); HeldOk(c, s') && RequestsOk(c, s')
  {
    hide OutputOk, MarkersOk, Settled, PageOk;
    assert Answers(Handle(c, s, e)) == Answers(s);
  }

  lemma HandleKeeps(c: Config, s: State, e: Event)
    requires Ready(c, s) && InHistory(c, s, e) && s.debt <= s.resolved
    requires SignalOk(s.(phase := Check))
    requires NoneWanted(s.history, Live(c.filter), s.resolved, e.number - 1)
    requires ChainOk(c, s.(phase := Check, resolved := Max(s.resolved, e.number)))
    ensures Inv(c, Handle(c, s, e))
  {
    hide OutputOk, MarkersOk, Settled, Linked, NoneWanted, LinkOk, CursorOk, SignalOk, RequestsOk, HeldOk, InHistory;
    HandleOutput(c, s, e);
    HandleAccounts(c, s, e);
    HandleCursor(c, s, e);
  }

  /** What was printed is judged by the history and the output alone. */
  lemma SameOutput(c: Config, s: State, s': State)
    requires s'.history == s.history && s'.out == s.out && s'.lastSeq == s.lastSeq && s'.bounds == s.bounds
    requires s'.from == s.from && s'.resolved == s.resolved
    requires OutputOk(c, s) && MarkersOk(c, s) && Settled(c, s) && s.resolved <= |s.history|
    ensures OutputOk(c, s') && MarkersOk(c, s') && Settled(c, s')
  {
    SettledGrown(c, s, s');
    forall j | 0 <= j < |s.out| && s.out[j].Gap? ensures Caused(c, s', s.out[j]) {
      CausedGrown(c, s, s', s.out[j]);
    }
  }

  lemma SameLink(c: Config, s: State, s': State)
    requires s'.history == s.history && s'.wire == s.wire && s'.reply == s.reply && s'.read == s.read && s'.sent == s.sent
    requires LinkOk(c, s)
    ensures LinkOk(c, s') && Answers(s') == Answers(s)
  {}

  lemma ReadyAfter(c: Config, s: State, s': State)
    requires Inv(c, s) && (s.phase.Poll? || s.phase.Choose? || s.phase.TakeSignal?)
    requires s' == s.(dropped := s'.dropped, queue := s'.queue)
    ensures Ready(c, s')
  {
    hide OutputOk, MarkersOk, Settled, PageOk, ChainOk, HeldOk;
    SameOutput(c, s, s');
    assert Answers(s') == Answers(s);
  }

  /** A complete recovery with no further overflow goes live. */
  lemma GoLiveKeeps(c: Config, s: State)
    requires Inv(c, s) && s.phase.Poll? && s.dropped == 0 && Held(s).None?
    ensures Inv(c, DoPoll(c, s))
  {
    hide HistoryOk, OutputOk, MarkersOk, Settled, LinkOk, CursorOk, AskingOk, ChainOk, HeldOk, SignalOk, Held;
    GoLiveOutput(c, s);
    GoLiveCursor(c, s);
    GoLiveLink(c, s);
  }

  lemma GoLiveOutput(c: Config, s: State)
    requires HistoryOk(c, s) && OutputOk(c, s) && MarkersOk(c, s) && Settled(c, s)
    requires s.phase.Poll? && s.dropped == 0 && Held(s).None?
    ensures var s' := DoPoll(c, s); OutputOk(c, s') && MarkersOk(c, s') && Settled(c, s')
  {
    hide OutputOk, MarkersOk, Settled;
    var s' := DoPoll(c, s);
    if s.phase.origin.Replaying? {
      MarkerAppend(c, s, s', FollowingNow(s.lastSeq));
      SettledGrown(c, s, s');
    } else {
      SameOutput(c, s, s');
    }
  }

  lemma GoLiveCursor(c: Config, s: State)
    requires HistoryOk(c, s) && CursorOk(c, s) && HeldOk(c, s) && SignalOk(s)
    requires s.phase.Poll? && s.dropped == 0 && Held(s).None?
    ensures var s' := DoPoll(c, s); HistoryOk(c, s') && CursorOk(c, s') && HeldOk(c, s') && SignalOk(s')
  {
    hide Numbered, Categorized;
  }

  lemma GoLiveLink(c: Config, s: State)
    requires LinkOk(c, s) && AskingOk(c, s) && ChainOk(c, s)
    requires s.phase.Poll? && s.dropped == 0 && Held(s).None?
    ensures var s' := DoPoll(c, s); LinkOk(c, s') && AskingOk(c, s') && ChainOk(c, s')
  {
    hide Linked, Tail, NoneWanted, PageOk;
    SameLink(c, s, DoPoll(c, s));
  }

  lemma PollRecovers(c: Config, s: State)
    requires Inv(c, s) && s.phase.Poll? && s.dropped > 0
    ensures Inv(c, DoPoll(c, s))
  {
    hide OutputOk, MarkersOk, Settled, PageOk, Linked, LinkOk, Tail, NoneWanted, Wants, CursorOk;
    var s0 := s.(dropped := 0);
    ReadyAfter(c, s, s0);
    LinkedMono(s.history, Live(c.filter), Base(s), |s.history|, s.queue);
    RecoveryKeeps(c, s0, s.phase.origin, s.dropped);
  }

  lemma PollHandles(c: Config, s: State)
    requires Inv(c, s) && s.phase.Poll? && s.dropped == 0 && Held(s).Some?
    ensures Inv(c, DoPoll(c, s))
  {
    hide OutputOk, MarkersOk, Settled, PageOk, Linked, LinkOk, Tail, CursorOk, Wants;
    ReadyAfter(c, s, s);
    HandleKeeps(c, s, Held(s).value);
  }

  lemma PollKeeps(c: Config, s: State)
    requires Inv(c, s) && s.phase.Poll?
    ensures Inv(c, DoPoll(c, s))
  {
    hide Inv, DoPoll;
    if s.dropped > 0 {
      PollRecovers(c, s);
    } else if Held(s).None? {
      GoLiveKeeps(c, s);
    } else {
      PollHandles(c, s);
    }
  }

  /** A tagged event is set aside while the recovery runs. */
  lemma EventRecovers(c: Config, s: State)
    requires Inv(c, s) && s.phase.Choose? && s.queue != [] && s.queue[0].droppedBefore > 0
    ensures Inv(c, DoEvent(c, s))
  {
    hide OutputOk, MarkersOk, Settled, PageOk, NoneWanted, LinkOk, Wants, CursorOk, Certified, Tail;
    var item := s.queue[0];
    var s0 := s.(queue := s.queue[1..]);
    ReadyAfter(c, s, s0);
    LinkedMono(s.history, Live(c.filter), Max(Base(s), item.event.number), |s.history|, s0.queue);
    RecoveryKeeps(c, s0, Resuming(Some(item.event)), item.droppedBefore);
  }

  /** An untagged head of the queue continues the settled part. */
  lemma HeadContinues(c: Config, s: State)
    requires ChainOk(c, s) && s.phase.Choose? && s.queue != [] && s.queue[0].droppedBefore == 0
    ensures var e, s0 := s.queue[0].event, s.(queue := s.queue[1..]);
            && InHistory(c, s0, e) && s0.debt <= s0.resolved
            && NoneWanted(s0.history, Live(c.filter), s0.resolved, e.number - 1)
            && ChainOk(c, s0.(phase := Check, resolved := Max(s0.resolved, e.number)))
  {
    hide NoneWanted, Wants;
  }

  lemma TailSignals(s: State)
    requires SignalOk(s) && s.phase.Choose? && s.queue != []
    ensures SignalOk(s.(queue := s.queue[1..], phase := Check))
  {}

  /** An untagged event is handled right away. */
  lemma EventHandled(c: Config, s: State)
    requires Inv(c, s) && s.phase.Choose? && s.queue != [] && s.queue[0].droppedBefore == 0
    ensures Inv(c, DoEvent(c, s))
  {
    var s0 := s.(queue := s.queue[1..]);
    HeadContinues(c, s);
    TailSignals(s);
    ReadyAfter(c, s, s0);
    assert s0.(phase := Check) == s.(queue := s.queue[1..], phase := Check);
    hide Inv, Ready, ChainOk, SignalOk, InHistory, NoneWanted, Handle;
    HandleKeeps(c, s0, s.queue[0].event);
  }

  lemma EventKeeps(c: Config, s: State)
    requires Inv(c, s) && s.phase.Choose? && s.queue != []
    ensures Inv(c, DoEvent(c, s))
  {
    hide Inv, DoEvent;
    if s.queue[0].droppedBefore > 0 {
      EventRecovers(c, s);
    } else {
      EventHandled(c, s);
    }
  }

  lemma SignalRecovers(c: Config, s: State)
    requires Inv(c, s) && s.phase.TakeSignal? && s.dropped > 0
    ensures Inv(c, DoTakeSignal(s))
  {
    hide OutputOk, MarkersOk, Settled, PageOk, Linked, NoneWanted, LinkOk, Tail, Wants, CursorOk;
    var s0 := s.(dropped := 0);
    ReadyAfter(c, s, s0);
    LinkedMono(s.history, Live(c.filter), Base(s), |s.history|, s.queue);
    RecoveryKeeps(c, s0, Resuming(None), s.dropped);
  }

  lemma SignalPasses(c: Config, s: State)
    requires Inv(c, s) && s.phase.TakeSignal? && s.dropped == 0
    ensures Inv(c, DoTakeSignal(s))
  {
    hide OutputOk, MarkersOk, Settled, PageOk, Linked, NoneWanted, LinkOk, Tail, Wants;
    SameOutput(c, s, DoTakeSignal(s));
    SameLink(c, s, DoTakeSignal(s));
  }

  lemma SignalKeeps(c: Config, s: State)
    requires Inv(c, s) && s.phase.TakeSignal?
    ensures Inv(c, DoTakeSignal(s))
  {
    hide Inv, DoTakeSignal;
    if s.dropped > 0 {
      SignalRecovers(c, s);
    } else {
      SignalPasses(c, s);
    }
  }

  // ------------------------------------------------------------------ pages

  /** The certificate survives when the settled position or the debt grows. */
  lemma ChainRaised(c: Config, s: State, s': State)
    requires s.read <= |s.history| && Linked(s.history, Live(c.filter), Base(s), s.queue)
    requires s'.history == s.history && s'.reader == s.reader && s'.queue == s.queue && s'.read == s.read
    requires Base(s) <= Base(s')
    requires ReaderAt(c, s)
    requires s.read <= Base(s') || (s'.dropped == s.dropped && Certified(c, s))
    ensures Linked(s'.history, Live(c.filter), Base(s'), s'.queue) && ReaderAt(c, s') && Certified(c, s')
  {
    LinkedMono(s.history, Live(c.filter), Base(s), Base(s'), s.queue);
    TailAtLeast(Base(s'), s.queue);
  }

  /** Consuming the one outstanding answer leaves none. */
  lemma AnswerConsumed(c: Config, s: State)
    requires RequestsOk(c, s) && s.phase.Await? && s.reply.Some?
    ensures PageOk(c, s, s.reply.value) && s.server.NoRequest? && Responses(s.wire) == []
  {
    assert s.reply.value in Answers(s);
  }

  lemma ResetCursor(c: Config, s: State)
    requires HistoryOk(c, s) && CursorOk(c, s)
    requires s.phase.Await? && s.reply.Some? && s.reply.value.reset && PageOk(c, s, s.reply.value)
    ensures CursorOk(c, DoPage(c, s)) && s.lastSeq == 0 && s.from.None?
    ensures Caused(c, s, GapLine(s, true, 0))
  {
    hide Resolves, SomeMatch, Complete;
  }

  lemma ResetChain(c: Config, s: State)
    requires HistoryOk(c, s) && ChainOk(c, s) && HeldOk(c, s) && SignalOk(s)
    requires s.phase.Await? && s.reply.Some? && s.reply.value.reset && s.lastSeq == 0
    ensures var s' := DoPage(c, s); HistoryOk(c, s') && ChainOk(c, s') && HeldOk(c, s') && SignalOk(s')
  {
    hide Linked, NoneWanted;
  }

  /** A restart from zero is possible only before the first accepted page. */
  lemma ResetKeeps(c: Config, s: State)
    requires Inv(c, s) && s.phase.Await? && s.reply.Some? && s.reply.value.reset
    ensures Inv(c, DoPage(c, s))
  {
    var s' := DoPage(c, s);
    AnswerConsumed(c, s);
    hide OutputOk, MarkersOk, CursorOk, HistoryOk, ChainOk, HeldOk, SignalOk, PageOk, Caused;
    ResetCursor(c, s);
    ResetChain(c, s);
    MarkerAppend(c, s, s', GapLine(s, true, 0));
    SameLink(c, s.(reply := None), s');
  }

  lemma OnPageIsOnTarget(f: Filter, h: seq<Event>, e: Event)
    requires Categorized(h) && 0 < e.number <= |h| && h[e.number - 1] == e && Wants(Replay(f), e)
    ensures OnTarget(f, e)
  {
    hide Known;
    assert e in h;
    ReplayIsSubscribed(f, e);
  }

  /** Every event of an accepted page is new, on target, and from the history. */
  lemma PageEvents(c: Config, s: State, p: Page)
    requires HistoryOk(c, s) && PageOk(c, s, p)
    ensures var eff := EffectiveCursor(s.cursor, s.staleStream, p.lastSeq);
            && Ascending(p.events)
            && (forall e :: e in p.events ==> eff < e.number <= Upto(p) && s.history[e.number - 1] == e && OnTarget(c.filter, e))
            && (p.events != [] ==> forall e :: e in p.events ==> e.number <= p.events[|p.events| - 1].number)
  {
    hide Known, Wants, Select, SomeMatch, OnTarget;
    var eff := EffectiveCursor(s.cursor, s.staleStream, p.lastSeq);
    SelectMembers(s.history, Replay(c.filter), Max(Evicted(p.lastSeq, c.bufferSize), eff), Upto(p));
    forall e | e in p.events ensures OnTarget(c.filter, e) {
      OnPageIsOnTarget(c.filter, s.history, e);
    }
  }

  /** The page's lines follow the marker, if one is printed. */
  function PageLines(s: State, p: Page): seq<Line> {
    s.out + if p.dropped then [GapLine(s, false, 0)] else []
  }

  lemma PageMarkers(c: Config, s: State)
    requires HistoryOk(c, s) && CursorOk(c, s) && MarkersOk(c, s)
    requires s.phase.Await? && s.reply.Some? && !s.reply.value.reset && PageOk(c, s, s.reply.value)
    ensures MarkersOk(c, DoPage(c, s))
  {
    hide Resolves, Select;
    var s', p := DoPage(c, s), s.reply.value;
    forall j | 0 <= j < |s'.out| && s'.out[j].Gap? ensures Caused(c, s', s'.out[j]) {
      if j < |s.out| {
        CausedGrown(c, s, s', s.out[j]);
      } else {
        assert p.dropped && s'.out[j] == GapLine(s, false, 0);
      }
    }
  }

  lemma PrintPage(f: Filter, h: seq<Event>, out: seq<Line>, events: seq<Event>, last: nat)
    requires OutOk(f, h, out, last) && Ascending(events)
    requires forall e :: e in events ==> last < e.number <= |h| && h[e.number - 1] == e && OnTarget(f, e)
    ensures OutOk(f, h, out + Lines(events), if events == [] then last else events[|events| - 1].number)
  {
    hide OnTarget;
    var all := out + Lines(events);
    forall k | |out| <= k < |all| ensures all[k] == Printed(events[k - |out|]) && events[k - |out|] in events {}
  }

  lemma PageOutput(c: Config, s: State)
    requires HistoryOk(c, s) && CursorOk(c, s) && OutputOk(c, s)
    requires s.phase.Await? && s.reply.Some? && !s.reply.value.reset && PageOk(c, s, s.reply.value)
    ensures OutputOk(c, DoPage(c, s))
  {
    hide OutOk, OnTarget, SomeMatch, Select, NoneWanted, Numbered, Categorized;
    var p := s.reply.value;
    PageEvents(c, s, p);
    assert OutOk(c.filter, s.history, PageLines(s, p), s.lastSeq) by {
      MarkerLast(c.filter, s.history, s.out, PageLines(s, p), s.lastSeq);
    }
    PrintPage(c.filter, s.history, PageLines(s, p), p.events, s.lastSeq);
    if p.events != [] {
      assert p.events[|p.events| - 1] in p.events;
    }
  }

  lemma MarkerLast(f: Filter, h: seq<Event>, out: seq<Line>, out': seq<Line>, last: nat)
    requires OutOk(f, h, out, last)
    requires out' == out || (|out'| == |out| + 1 && out' == out + [out'[|out|]] && !out'[|out|].Printed?)
    ensures OutOk(f, h, out', last)
  {}

  /** An accepted page settles everything up to its boundary: a matching event
      is printed, or was evicted and the marker before the page says so. */
  lemma PageAccounts(c: Config, s: State)
    requires HistoryOk(c, s) && CursorOk(c, s) && OutputOk(c, s) && Settled(c, s)
    requires s.phase.Await? && s.reply.Some? && !s.reply.value.reset && PageOk(c, s, s.reply.value)
    ensures Settled(c, DoPage(c, s))
  {
    var s', p := DoPage(c, s), s.reply.value;
    var eff := EffectiveCursor(s.cursor, s.staleStream, p.lastSeq);
    if Complete(c, s') {
      assert Complete(c, s);
      PageFollows(c, s);
      hide Complete;
      forall i | s'.from.value <= i < s'.resolved && i < |s.history| && Matches(c.filter, s.history[i])
        ensures Accounted(c, s', i)
      {
        if i < s.resolved && s.from.Some? {
          AccountedGrown(c, s, s', i);
        } else if i >= Evicted(p.lastSeq, c.bufferSize) {
          PagePrints(c, s, i);
        } else {
          PageMarks(c, s, i);
        }
      }
    }
  }

  lemma PageFollows(c: Config, s: State)
    requires CursorOk(c, s) && s.phase.Await? && s.reply.Some? && !s.reply.value.reset && PageOk(c, s, s.reply.value)
    ensures Follows(s, DoPage(c, s))
  {
    hide Resolves, SomeMatch, Complete;
  }

  lemma PagePrints(c: Config, s: State, i: nat)
    requires HistoryOk(c, s) && s.phase.Await? && s.reply.Some? && !s.reply.value.reset && PageOk(c, s, s.reply.value)
    requires var p := s.reply.value;
             Max(Evicted(p.lastSeq, c.bufferSize), EffectiveCursor(s.cursor, s.staleStream, p.lastSeq)) <= i < Upto(p)
    requires i < |s.history| && Matches(c.filter, s.history[i])
    ensures Printed(s.history[i]) in DoPage(c, s).out
  {
    var p := s.reply.value;
    var eff := EffectiveCursor(s.cursor, s.staleStream, p.lastSeq);
    WantedIsSelected(s.history, Replay(c.filter), Max(Evicted(p.lastSeq, c.bufferSize), eff), Upto(p), i);
    var k :| 0 <= k < |p.events| && p.events[k] == s.history[i];
    assert DoPage(c, s).out[|PageLines(s, p)| + k] == Printed(s.history[i]);
  }

  lemma PageMarks(c: Config, s: State, i: nat)
    requires HistoryOk(c, s) && CursorOk(c, s) && OutputOk(c, s) && Complete(c, s)
    requires s.phase.Await? && s.reply.Some? && !s.reply.value.reset && PageOk(c, s, s.reply.value)
    requires var p := s.reply.value;
             EffectiveCursor(s.cursor, s.staleStream, p.lastSeq) <= i < Evicted(p.lastSeq, c.bufferSize)
    requires i < |s.history| && Matches(c.filter, s.history[i])
    requires s.from.Some? || s.cursor > 0
    ensures i < Evicted(|s.history|, c.bufferSize) && Marked(DoPage(c, s).out, DoPage(c, s).bounds, i + 1)
  {
    hide Resolves, Select, Complete;
    var s', p := DoPage(c, s), s.reply.value;
    if s.cursor > 0 {
      assert SomeMatch(s.history, c.filter, s.cursor, Evicted(p.lastSeq, c.bufferSize));
      assert Covers(s'.out, s'.bounds, |s.out|, i + 1);
    } else {
      assert Covers(s'.out, s'.bounds, |s.out| - 1, i + 1);
    }
  }

  lemma PageCursor(c: Config, s: State)
    requires HistoryOk(c, s) && CursorOk(c, s) && s.phase.Await? && s.reply.Some?
    requires !s.reply.value.reset && PageOk(c, s, s.reply.value)
    ensures HistoryOk(c, DoPage(c, s)) && CursorOk(c, DoPage(c, s))
  {
    hide Select, SomeMatch, Numbered, Categorized, Complete, EventRing.Unambiguous;
    PageEvents(c, s, s.reply.value);
    PageBoundsStay(c, s);
  }

  lemma PageBoundsStay(c: Config, s: State)
    requires s.phase.Await? && s.reply.Some? && !s.reply.value.reset && forall j :: j in s.bounds ==> j < |s.out|
    ensures forall j :: j in DoPage(c, s).bounds ==> j < |DoPage(c, s).out|
  {}

  lemma PageChain(c: Config, s: State)
    requires HistoryOk(c, s) && ChainOk(c, s) && HeldOk(c, s) && SignalOk(s)
    requires s.phase.Await? && s.reply.Some? && !s.reply.value.reset && PageOk(c, s, s.reply.value)
    ensures ChainOk(c, DoPage(c, s)) && HeldOk(c, DoPage(c, s)) && SignalOk(DoPage(c, s))
  {
    hide Select, SomeMatch, NoneWanted;
    ChainRaised(c, s, DoPage(c, s));
  }

  lemma PageKeeps(c: Config, s: State)
    requires Inv(c, s) && s.phase.Await? && s.reply.Some?
    ensures Inv(c, DoPage(c, s))
  {
    AnswerConsumed(c, s);
    if s.reply.value.reset {
      ResetKeeps(c, s);
    } else {
      hide OutputOk, MarkersOk, Settled, CursorOk, ChainOk, HeldOk, SignalOk, HistoryOk, PageOk;
      PageOutput(c, s);
      PageMarkers(c, s);
      PageAccounts(c, s);
      PageCursor(c, s);
      PageChain(c, s);
      SameLink(c, s.(reply := None), DoPage(c, s));
    }
  }

  // ------------------------------------------------- every step, every run

  lemma AnswerKeeps(c: Config, s: State, dropped: bool)
    requires Inv(c, s) && s.server.Snapped? && s.server.n <= |s.history| && FlagAllowed(c, s, dropped)
    ensures Inv(c, DoAnswer(c, s, dropped))
  {
    hide PageOk, OutputOk, MarkersOk, Settled, Linked, NoneWanted, Tail, Select, PageWith, FlagAllowed;
    if !s.phase.Stopped? {
      AnswerOk(c, s, dropped);
    }
    var s' := DoAnswer(c, s, dropped);
    if s.connected {
      WireSnoc(s.wire, s'.wire[|s.wire|]);
    }
    SameOutput(c, s, s');
  }

  lemma SnapshotKeeps(c: Config, s: State)
    requires Inv(c, s) && s.server.Asked?
    ensures Inv(c, Apply(c, s, Snapshot))
  {
    hide OutputOk, MarkersOk, Settled, ChainOk, LinkOk, Resolves, SomeMatch;
    var s' := Apply(c, s, Snapshot);
    SameOutput(c, s, s');
    SamePhase(c, s, s');
  }

  lemma AskKeeps(c: Config, s: State)
    requires Inv(c, s) && s.phase.Request?
    ensures Inv(c, Apply(c, s, ConsumerAsk))
  {
    hide OutputOk, MarkersOk, Settled, ChainOk, LinkOk, PageOk;
    var s' := Apply(c, s, ConsumerAsk);
    SameOutput(c, s, s');
    SamePhase(c, s, s');
  }

  /** Phase changes among the paging ones, or among the live ones, and stopping. */
  lemma SamePhase(c: Config, s: State, s': State)
    requires s' == s.(server := s'.server, phase := s'.phase, token := s'.token, connected := s'.connected)
    requires Paging(s) ==> Paging(s') || s'.phase.Stopped?
    requires s.phase.Stopped? ==> s'.phase.Stopped?
    requires ChainOk(c, s) && LinkOk(c, s)
    ensures ChainOk(c, s') && LinkOk(c, s')
  {
    hide Linked, NoneWanted, Tail, Select;
  }

  lemma SameRequests(c: Config, s: State, s': State)
    requires s' == s.(phase := s'.phase, token := s'.token, connected := s'.connected)
    requires s'.phase.Await? == s.phase.Await? && RequestsOk(c, s)
    ensures RequestsOk(c, s')
  {
    hide Resolves, SomeMatch, Responses;
    assert Answers(s') == Answers(s);
    forall p | PageOk(c, s, p) ensures PageOk(c, s', p) {}
  }

  /** Looking at the signal, stopping, and losing the connection. */
  lemma PhaseKeeps(c: Config, s: State, step: Step)
    requires Inv(c, s) && Enabled(c, s, step)
    requires step.ConsumerCheck? || step.ConsumerSignal? || step.ConsumerStop? || step.Disconnect?
    ensures Inv(c, Apply(c, s, step))
  {
    hide OutputOk, MarkersOk, Settled, ChainOk, LinkOk, RequestsOk, Covers, Wants;
    var s' := Apply(c, s, step);
    SameOutput(c, s, s');
    SamePhase(c, s, s');
    if !s'.phase.Stopped? {
      SameRequests(c, s, s');
    }
  }

  lemma StepKeeps(c: Config, s: State, step: Step)
    requires Inv(c, s) && Enabled(c, s, step)
    ensures Inv(c, Apply(c, s, step))
  {
    hide Inv, DoIngest, DoAnswer, DoTake, DoOffer, DoPage, DoPoll, DoEvent, DoTakeSignal, Categorize;
    match step
    case Ingest(target, eventType) => IngestKeeps(c, s, NextEvent(s, target, eventType));
    case Disconnect => PhaseKeeps(c, s, step);
    case Snapshot => SnapshotKeeps(c, s);
    case Answer(dropped) => AnswerKeeps(c, s, dropped);
    case ReaderTake => TakeKeeps(c, s);
    case ReaderOffer => OfferKeeps(c, s);
    case ReaderCount => CountKeeps(c, s);
    case ReaderNotify => NotifyKeeps(c, s);
    case ConsumerAsk => AskKeeps(c, s);
    case ConsumerPage => PageKeeps(c, s);
    case ConsumerPoll => PollKeeps(c, s);
    case ConsumerCheck => PhaseKeeps(c, s, step);
    case ConsumerSignal => PhaseKeeps(c, s, step);
    case ConsumerEvent => EventKeeps(c, s);
    case ConsumerTake => SignalKeeps(c, s);
    case ConsumerStop => PhaseKeeps(c, s, step);
  }

  lemma InitHolds(c: Config, s: State)
    requires Init(c, s)
    ensures Inv(c, s)
  {
    SelectEmpty(s.history, Live(c.filter), s.read, s.sent);
  }

  lemma {:induction false} RunKeeps(c: Config, s: State, steps: seq<Step>)
    requires Inv(c, s)
    ensures Inv(c, Run(c, s, steps))
    decreases |steps|
  {
    hide Inv, Apply;
    if steps != [] {
      if Enabled(c, s, steps[0]) {
        StepKeeps(c, s, steps[0]);
      }
      RunKeeps(c, if Enabled(c, s, steps[0]) then Apply(c, s, steps[0]) else s, steps[1..]);
    }
  }

  // ---------------------------------------------------------------- theorems

  /** No silent loss. In every interleaving, while the eviction tables are
      complete, a matching event past the start of the first accepted page is, by
      the time anything past it was printed, printed as well, or it was evicted
      from the ring and a gap marker that reaches it came before everything past
      it. */
  lemma NoSilentLoss(c: Config, s0: State, steps: seq<Step>, i: nat)
    requires Init(c, s0)
    requires var s := Run(c, s0, steps);
             && Complete(c, s)
             && s.from.Some? && s.from.value <= i < s.lastSeq && i < |s.history|
             && Matches(c.filter, s.history[i])
    ensures Accounted(c, Run(c, s0, steps), i)
  {
    hide LinkOk, AskingOk, CursorOk, OutputOk, ChainOk, HeldOk, SignalOk, MarkersOk, Complete;
    InitHolds(c, s0);
    RunKeeps(c, s0, steps);
  }

  /** Exactly once. The printed sequences strictly increase across replay pages,
      the hand-off and every recovery, and each line is the ingested event. It
      passes the filter as the live subscription applies it, which is the
      replay filter whenever the category flag is a plain category. */
  lemma PrintsExactlyOnce(c: Config, s0: State, steps: seq<Step>)
    requires Init(c, s0)
    ensures var s := Run(c, s0, steps);
            && InOrder(s.out)
            && forall j :: 0 <= j < |s.out| && s.out[j].Printed? ==>
                 var e := s.out[j].event;
                 && 0 < e.number <= |s.history| && s.history[e.number - 1] == e && OnTarget(c.filter, e)
                 && (LiveAgreesWithReplay(c.filter.category) ==> Matches(c.filter, e))
  {
    hide LinkOk, AskingOk, CursorOk, Settled, ChainOk, HeldOk, SignalOk, MarkersOk, LiveAgreesWithReplay;
    InitHolds(c, s0);
    RunKeeps(c, s0, steps);
    var s := Run(c, s0, steps);
    forall j | 0 <= j < |s.out| && s.out[j].Printed? && LiveAgreesWithReplay(c.filter.category)
      ensures Matches(c.filter, s.out[j].event)
    {
      LiveAgreesWithReplayExact(c.filter.category);
      assert s.out[j].event in s.history;
      assert Matches(Filter(c.filter.category, ""), s.out[j].event);
    }
  }

  /** Once a connected follower has drained everything with no drop pending,
      and the tables are complete, every matching event past its start is
      accounted for. */
  lemma QuietMeansComplete(c: Config, s0: State, steps: seq<Step>, i: nat)
    requires Init(c, s0)
    requires var s := Run(c, s0, steps);
             && Complete(c, s) && s.connected && (s.phase.Check? || s.phase.Choose?)
             && s.wire == [] && s.reader.Idle? && s.queue == [] && s.dropped == 0
             && s.from.Some? && s.from.value <= i < |s.history| && Matches(c.filter, s.history[i])
    ensures Accounted(c, Run(c, s0, steps), i)
  {
    hide AskingOk, CursorOk, OutputOk, HeldOk, SignalOk, MarkersOk, Complete;
    InitHolds(c, s0);
    RunKeeps(c, s0, steps);
    var s := Run(c, s0, steps);
    SelectEmpty(s.history, Live(c.filter), s.read, s.sent);
    assert s.history[i] in s.history;
    ReplayIsSubscribed(c.filter, s.history[i]);
  }

  lemma {:induction false} LinkedWitness(h: seq<Event>, q: Query, cur: nat, queue: seq<Tagged>, i: nat)
    requires Linked(h, q, cur, queue) && cur <= i < |h| && Wants(q, h[i])
    requires forall k :: 0 <= k < |queue| ==> queue[k].event.number != i + 1
    ensures Tail(cur, queue) <= i ||
            exists k :: 0 <= k < |queue| && queue[k].droppedBefore > 0 && queue[k].event.number > i + 1 &&
              forall j :: 0 <= j < k ==> queue[j].event.number < i + 1
    decreases |queue|
  {
    if queue != [] && queue[0].event.number < i + 1 {
      LinkedWitness(h, q, Max(cur, queue[0].event.number), queue[1..], i);
      if Tail(cur, queue) > i {
        var k :| 0 <= k < |queue[1..]| && queue[1..][k].droppedBefore > 0 && queue[1..][k].event.number > i + 1 &&
          forall j :: 0 <= j < k ==> queue[1..][j].event.number < i + 1;
        assert queue[k + 1].droppedBefore > 0;
        assert forall j :: 0 < j < k + 1 ==> queue[j] == queue[1..][j - 1];
      }
    }
  }

  /** Drop evidence never vanishes. For a live consumer, a wanted event that was
      taken off the link, is unsettled, and is neither queued nor held by the
      read loop, is witnessed: by a tag on the first queued event past it, by
      the tag in the read loop's hand, by a count about to be added, or by a
      nonzero counter that is announced. */
  lemma DropEvidenceRemains(c: Config, s0: State, steps: seq<Step>, i: nat)
    requires Init(c, s0)
    requires var s := Run(c, s0, steps);
             && (s.phase.Check? || s.phase.Choose? || s.phase.TakeSignal?)
             && s.resolved <= i < s.read && i < |s.history| && Wants(Live(c.filter), s.history[i])
             && (forall k :: 0 <= k < |s.queue| ==> s.queue[k].event.number != i + 1)
             && (s.reader.Holding? ==> s.reader.item.event.number != i + 1)
    ensures var s := Run(c, s0, steps);
            || (exists k :: 0 <= k < |s.queue| && s.queue[k].droppedBefore > 0 && s.queue[k].event.number > i + 1 &&
                  forall j :: 0 <= j < k ==> s.queue[j].event.number < i + 1)
            || (s.reader.Holding? && s.reader.item.droppedBefore > 0)
            || s.reader.Counting?
            || (s.dropped > 0 && (s.token || s.reader.Notifying? || s.phase.TakeSignal?))
  {
    hide LinkOk, AskingOk, CursorOk, OutputOk, Settled, HeldOk, MarkersOk;
    InitHolds(c, s0);
    RunKeeps(c, s0, steps);
    var s := Run(c, s0, steps);
    LinkedWitness(s.history, Live(c.filter), Base(s), s.queue, i);
  }
}
