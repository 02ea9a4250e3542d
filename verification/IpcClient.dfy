/** The local client's live-event buffer: a bounded queue that never blocks the
    read loop, a drop counter, and a drop signal that holds one token. */
module IpcClient {
  import opened Events
  import opened Follow
  import EventRing
  import opened Wrappers

  class Client {
    var events: seq<Tagged>
    var dropped: nat
    var dropNotify: bool
    /** The consumer received the signal and has not read the counter yet. */
    ghost var observing: bool
    /** How many events were really dropped just before each queued one, and
        since the last queued one or the last reading of the counter. */
    ghost var lostBefore: seq<nat>
    ghost var lostNow: nat

    /** Every loss has evidence and no evidence is made up; a count says that
        something was lost, not how much. */
    ghost predicate Valid()
      reads this
    {
      && |events| == |lostBefore| <= QUEUE_CAPACITY
      && (forall k :: 0 <= k < |events| ==> Evidence(events[k].droppedBefore, lostBefore[k]))
      && Evidence(dropped, lostNow)
      && (dropped > 0 ==> dropNotify || observing)
    }

    constructor ()
      ensures Valid() && events == [] && dropped == 0 && !dropNotify && !observing && lostNow == 0
    {
      events, dropped, dropNotify, observing, lostBefore, lostNow := [], 0, false, false, [], 0;
    }

    /** One event arrives at the read loop. */
    method Receive(e: Event)
      requires Valid()
      modifies this
      ensures Valid() && observing == old(observing)
      ensures old(|events|) < 256 ==>
                && events == old(events) + [Tagged(e, old(dropped))] && lostBefore == old(lostBefore) + [old(lostNow)]
                && dropped == 0 && lostNow == 0 && dropNotify == old(dropNotify)
      ensures old(|events|) == 256 ==>
                && events == old(events) && lostBefore == old(lostBefore)
                && dropped == 1 && lostNow == old(lostNow) + 1 && dropNotify
      ensures forall c: Config, s: State ::
                old(Shows(s)) && s.reader.Idle? && s.wire != [] && s.wire[0] == Push(e) ==>
                  Shows(Run(c, s, [ReaderTake, ReaderOffer, ReaderCount, ReaderNotify]))
    {
      var pending := dropped;
      dropped := 0;
      if |events| < QUEUE_CAPACITY {
        events := events + [Tagged(e, pending)];
        lostBefore, lostNow := lostBefore + [lostNow], 0;
      } else {
        dropped := dropped + 1;
        dropNotify := true;
        lostNow := lostNow + 1;
      }
      forall c: Config, s: State |
        old(Shows(s)) && s.reader.Idle? && s.wire != [] && s.wire[0] == Push(e)
        ensures Shows(Run(c, s, [ReaderTake, ReaderOffer, ReaderCount, ReaderNotify]))
      {
        ReceiveSteps(c, s, e);
      }
    }

    /** The step machine's buffer fields are this object's. */
    ghost predicate Shows(s: State)
      reads this
    {
      s.queue == events && s.dropped == dropped && s.token == dropNotify
    }

    /** The consumer receives the token; it reads the counter next. */
    method ReceiveSignal()
      requires Valid() && dropNotify
      modifies `dropNotify, `observing
      ensures Valid() && !dropNotify && observing
    {
      dropNotify, observing := false, true;
    }

    method TakeDropped() returns (n: nat)
      requires Valid()
      modifies `dropped, `observing, `lostNow
      ensures Valid() && n == old(dropped) && dropped == 0 && lostNow == 0 && !observing
      ensures n == if old(lostNow) > 0 then 1 else 0
      ensures n == old(lostNow) <==> old(lostNow) <= 1
    {
      n := dropped;
      dropped, observing, lostNow := 0, false, 0;
    }

    method Next() returns (item: Tagged)
      requires Valid() && events != []
      modifies `events, `lostBefore
      ensures Valid() && item == old(events)[0] && events == old(events)[1..] && lostBefore == old(lostBefore)[1..]
      ensures item.droppedBefore == if old(lostBefore)[0] > 0 then 1 else 0
      ensures item.droppedBefore == old(lostBefore)[0] <==> old(lostBefore)[0] <= 1
    {
      item := events[0];
      events, lostBefore := events[1..], lostBefore[1..];
    }
  }

  /** A count is one if anything was lost and zero otherwise, so it is right if
      and only if at most one event was lost. */
  predicate Evidence(count: nat, lost: nat) {
    count == if lost > 0 then 1 else 0
  }

  /** The four read-loop steps, taken without interruption, on the buffer. */
  lemma ReceiveSteps(c: Config, s: State, e: Event)
    requires s.reader.Idle? && s.wire != [] && s.wire[0] == Push(e)
    ensures var s' := Run(c, s, [ReaderTake, ReaderOffer, ReaderCount, ReaderNotify]);
            if |s.queue| < QUEUE_CAPACITY then
              s'.queue == s.queue + [Tagged(e, s.dropped)] && s'.dropped == 0 && s'.token == s.token
            else
              s'.queue == s.queue && s'.dropped == 1 && s'.token
  {
    var s1 := DoTake(s);
    var s2 := DoOffer(s1);
    assert [ReaderTake, ReaderOffer, ReaderCount, ReaderNotify][1..] == [ReaderOffer, ReaderCount, ReaderNotify];
    assert [ReaderOffer, ReaderCount, ReaderNotify][1..] == [ReaderCount, ReaderNotify];
    assert [ReaderCount, ReaderNotify][1..] == [ReaderNotify];
    assert Run(c, s, [ReaderTake, ReaderOffer, ReaderCount, ReaderNotify]) == Run(c, s1, [ReaderOffer, ReaderCount, ReaderNotify]);
    assert Run(c, s1, [ReaderOffer, ReaderCount, ReaderNotify]) == Run(c, s2, [ReaderCount, ReaderNotify]);
    var s3 := if Enabled(c, s2, ReaderCount) then Apply(c, s2, ReaderCount) else s2;
    assert Run(c, s2, [ReaderCount, ReaderNotify]) == Run(c, s3, [ReaderNotify]);
  }

  /** Counts are not conserved: two events dropped in a row are reported as one. */
  method TwoDropsCountOnce(client: Client, first: Event, second: Event) returns (n: nat)
    requires client.Valid() && |client.events| == QUEUE_CAPACITY && client.dropped == 0 && client.lostNow == 0
    modifies client
    ensures n == 1
  {
    client.Receive(first);
    client.Receive(second);
    assert client.lostNow == 2;
    n := client.TakeDropped();
  }

  /** Reading the tables after the ring was copied, however much was ingested in
      between, gives a flag the step machine allows. */
  method ReadTables(ring: EventRing.EventRing, c: Config, s: State) returns (dropped: bool)
    requires ring.Valid() && ring.history == s.history && ring.bufferSize == c.bufferSize
    requires s.server.Snapped? && s.server.n <= |s.history|
    ensures Enabled(c, s, Answer(dropped))
  {
    var since := s.server.since;
    if s.server.staleStream || since > s.server.n {
      since := 0;
    }
    dropped := false;
    if since > 0 {
      dropped := ring.EvictedBeyond(c.filter, since);
    }
  }

  /** The step machine's page is the ring operation's page of the moment the ring
      was copied, with the flag that the tables gave later. */
  lemma AnswerIsTheRingsPage(c: Config, s: State, dropped: bool)
    requires s.server.Snapped? && s.server.n <= |s.history|
    ensures DoAnswer(c, s, dropped).wire ==
              if s.connected then
                s.wire + [Response(PageWith(s.history[..s.server.n], s.server.n, c.bufferSize, c.filter, s.server.since,
                                            c.limit, s.server.staleStream, dropped))]
              else s.wire
  {
    var n := s.server.n;
    SelectGrown(s.history[..n], s.history, Replay(c.filter),
                Max(Evicted(n, c.bufferSize), EffectiveCursor(s.server.since, s.server.staleStream, n)), n);
  }
}
