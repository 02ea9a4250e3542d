/** A run that prints what its cursor asked to skip: the live queue overflows
    while the first page is on its way, and nothing was delivered before. */
module FollowRuns {
  import opened Events
  import opened Follow
  import opened FollowProof
  import opened FollowStart
  import opened Wrappers
  import EventRing

  ghost predicate Reaches(c: Config, s: State, t: State) {
    exists steps :: Run(c, s, steps) == t
  }

  lemma {:induction false} RunSnoc(c: Config, s: State, steps: seq<Step>, step: Step)
    ensures Run(c, s, steps + [step]) ==
              var t := Run(c, s, steps); if Enabled(c, t, step) then Apply(c, t, step) else t
    decreases |steps|
  {
    hide Apply, Enabled;
    if steps == [] {
      assert [] + [step] == [step] && [step][1..] == [];
    } else {
      assert (steps + [step])[1..] == steps[1..] + [step];
      RunSnoc(c, if Enabled(c, s, steps[0]) then Apply(c, s, steps[0]) else s, steps[1..], step);
    }
  }

  lemma Onward(c: Config, s: State, t: State, step: Step)
    requires Reaches(c, s, t) && Enabled(c, t, step)
    ensures Reaches(c, s, Apply(c, t, step))
  {
    var steps :| Run(c, s, steps) == t;
    RunSnoc(c, s, steps, step);
  }

  /** No filter, a roomy ring, and a cursor that has seen the one event so far. */
  const SETUP: Config := Config(Filter("", ""), 0, 1000, 1, false, 1)

  const START: State :=
    State([Event(1, "other", "")], true, [], NoRequest, Idle, [], 0, false, None, Request(Replaying), 1, 0, false, [],
          1, 1, None, 0, 1, 0, map[], None)

  /** The first page arrived, empty, and `n` live events were queued meanwhile. */
  ghost predicate Filling(t: State, n: nat) {
    && t.connected && t.wire == [] && t.server.NoRequest? && t.reader.Idle? && t.dropped == 0 && |t.queue| == n
    && t.reply == Some(Page([], 1, false, false, false, 1)) && t.phase == Await(Replaying)
    && t.cursor == 1 && t.lastSeq == 0 && !t.staleStream && t.out == [] && t.from.None? && t.bounds == map[]
    && |t.history| == n + 1 && t.history[0] == Event(1, "other", "") && t.resolved == 0
  }

  lemma FirstPage() returns (t: State)
    ensures Reaches(SETUP, START, t) && Filling(t, 0)
  {
    assert Run(SETUP, START, []) == START;
    var t1 := Apply(SETUP, START, ConsumerAsk);
    Onward(SETUP, START, START, ConsumerAsk);
    var t2 := Apply(SETUP, t1, Snapshot);
    Onward(SETUP, START, t1, Snapshot);
    hide EventRing.TableComplete, EventRing.Unambiguous, Reaches;
    assert Enabled(SETUP, t2, Answer(false));
    var t3 := Apply(SETUP, t2, Answer(false));
    Onward(SETUP, START, t2, Answer(false));
    assert t3.wire == [Response(Page([], 1, false, false, false, 1))];
    Onward(SETUP, START, t3, ReaderTake);
    t := Apply(SETUP, t3, ReaderTake);
  }

  lemma OneMore(s: State, n: nat) returns (t: State)
    requires Reaches(SETUP, START, s) && Filling(s, n) && n < QUEUE_CAPACITY
    ensures Reaches(SETUP, START, t) && Filling(t, n + 1)
  {
    hide Reaches, Categorize;
    var t1, t2 := Pushed(s, n);
    t := Apply(SETUP, t2, ReaderOffer);
    Onward(SETUP, START, t2, ReaderOffer);
  }

  /** One more event is ingested and taken off the link. */
  lemma Pushed(s: State, n: nat) returns (t1: State, t2: State)
    requires Reaches(SETUP, START, s) && Filling(s, n)
    ensures Reaches(SETUP, START, t2) && t2.reader.Holding? && t2.reader.item.droppedBefore == 0
    ensures t2 == s.(history := t2.history, sent := t2.sent, read := t2.read, reader := t2.reader)
    ensures |t2.history| == n + 2 && t2.history[0] == s.history[0]
  {
    hide Reaches, Categorize;
    var step := Ingest("", "chat");
    t1 := Apply(SETUP, s, step);
    Onward(SETUP, START, s, step);
    t2 := Apply(SETUP, t1, ReaderTake);
    Onward(SETUP, START, t1, ReaderTake);
  }

  lemma {:induction false} Filled(n: nat) returns (t: State)
    requires n <= QUEUE_CAPACITY
    ensures Reaches(SETUP, START, t) && Filling(t, n)
    decreases n
  {
    hide Reaches, Filling;
    if n == 0 {
      t := FirstPage();
    } else {
      var s := Filled(n - 1);
      t := OneMore(s, n - 1);
    }
  }

  /** The overflow is counted, then the empty page is accepted. */
  lemma Overflowed() returns (t: State)
    ensures Reaches(SETUP, START, t)
    ensures t.connected && t.wire == [] && t.server.NoRequest? && t.reader.Idle? && t.dropped == 1
    ensures t.reply.None? && t.phase == Poll(Replaying) && t.lastSeq == 0 && !t.staleStream && t.from == Some(1)
    ensures t.out == [] && t.bounds == map[] && |t.history| == 258 && t.history[0] == Event(1, "other", "")
  {
    hide Reaches, Categorize;
    var s := Filled(QUEUE_CAPACITY);
    var _, t2 := Pushed(s, QUEUE_CAPACITY);
    var t3 := Apply(SETUP, t2, ReaderOffer);
    Onward(SETUP, START, t2, ReaderOffer);
    var t4 := Apply(SETUP, t3, ReaderCount);
    Onward(SETUP, START, t3, ReaderCount);
    var t5 := Apply(SETUP, t4, ReaderNotify);
    Onward(SETUP, START, t4, ReaderNotify);
    t := Apply(SETUP, t5, ConsumerPage);
    Onward(SETUP, START, t5, ConsumerPage);
  }

  /** The recovery starts from zero and its page is accepted. */
  lemma Restarted() returns (t: State)
    ensures Reaches(SETUP, START, t) && t.bounds == map[0 := 258] && |t.history| == 258
    ensures t.history[0] == Event(1, "other", "")
  {
    hide Reaches, Select, EventRing.TableComplete, EventRing.Unambiguous;
    var s := Overflowed();
    var t1 := Apply(SETUP, s, ConsumerPoll);
    Onward(SETUP, START, s, ConsumerPoll);
    var t2 := Apply(SETUP, t1, ConsumerAsk);
    Onward(SETUP, START, t1, ConsumerAsk);
    var t3 := Apply(SETUP, t2, Snapshot);
    Onward(SETUP, START, t2, Snapshot);
    assert Enabled(SETUP, t3, Answer(false));
    var t4 := Apply(SETUP, t3, Answer(false));
    Onward(SETUP, START, t3, Answer(false));
    assert |t4.wire| == 1 && t4.wire[0].Response? && t4.wire[0].page.lastSeq == 258;
    hide Apply, Enabled;
    t := Accepted(t4);
  }

  /** The page in hand is accepted, and bounds the marker before it. */
  lemma Accepted(s: State) returns (t: State)
    requires Reaches(SETUP, START, s) && |s.wire| == 1 && s.wire[0].Response? && s.reader.Idle?
    requires s.wire[0].page.lastSeq == 258 && !s.wire[0].page.reset
    requires s.phase.Await? && s.from.Some? && s.cursor == 0 && |s.out| == 1 && s.bounds == map[] && |s.history| == 258
    ensures Reaches(SETUP, START, t) && t.bounds == map[0 := 258] && t.history == s.history
  {
    hide Reaches;
    var s1 := Apply(SETUP, s, ReaderTake);
    Onward(SETUP, START, s, ReaderTake);
    t := Apply(SETUP, s1, ConsumerPage);
    Onward(SETUP, START, s1, ConsumerPage);
  }

  /** The event that the cursor had seen is printed again. */
  lemma EarlyOverflowPrintsBelow()
    ensures exists steps :: Init(SETUP, START) && OwnCursor(SETUP) && PrintedBelow(SETUP, Run(SETUP, START, steps))
  {
    var t := Restarted();
    var steps :| Run(SETUP, START, steps) == t;
    assert Init(SETUP, START);
    SkipsExactlyUnlessRestarted(SETUP, START, steps);
    assert Matches(SETUP.filter, t.history[0]);
    assert SomeMatch(t.history, SETUP.filter, Evicted(t.bounds[0], 1000), 1);
  }
}
