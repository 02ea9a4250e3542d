/** A cursor that the stream cannot have given out is reported, once and before
    anything else. */
module FollowResets {
  import opened Events
  import opened Follow
  import opened FollowProof
  import opened Wrappers

  /** Nothing is printed before the first answer; that answer decides about the
      reset marker, and every later cursor is the stream's own. */
  ghost predicate ResetOk(c: Config, s: State) {
    && (s.first.None? ==>
          && s.out == [] && s.from.None? && s.cursor == c.since && s.staleStream == c.staleStream
          && (Paging(s) || s.phase.Stopped?))
    && (s.first.Some? ==> (ResetAt(s.out, 0) <==> c.staleStream || c.since > s.first.value))
    && (s.first.Some? && s.from.None? ==> s.cursor == 0 && !s.staleStream && ResetAt(s.out, 0))
    && (forall j :: 0 < j < |s.out| && s.out[j].Gap? ==> !s.out[j].reset)
    && (s.from.Some? && c.since > 0 && !ResetAt(s.out, 0) ==> s.from.value == c.since)
  }

  /** Lines other than a reset marker follow the first answer. */
  lemma SameResets(c: Config, s: State, s': State, lines: seq<Line>)
    requires ResetOk(c, s) && s'.out == s.out + lines && s'.first == s.first && s'.from == s.from
    requires forall k :: 0 <= k < |lines| ==> !(lines[k].Gap? && lines[k].reset)
    requires s.from.None? ==>
               lines == [] && s'.cursor == s.cursor && s'.staleStream == s.staleStream && (Paging(s') || s'.phase.Stopped?)
    requires lines != [] ==> s.out != [] || s.from.Some?
    ensures ResetOk(c, s')
  {
    assert forall j :: 0 <= j < |s.out| ==> s'.out[j] == s.out[j];
    assert forall j :: |s.out| <= j < |s'.out| ==> s'.out[j] == lines[j - |s.out|];
  }

  lemma ResetsOnce(c: Config, s: State)
    requires HistoryOk(c, s) && CursorOk(c, s) && ResetOk(c, s) && s.phase.Await? && s.reply.Some?
    requires PageOk(c, s, s.reply.value)
    ensures s.reply.value.reset <==> s.first.None? && (c.staleStream || c.since > s.reply.value.lastSeq)
  {
    hide Resolves, SomeMatch, Complete, Numbered, Categorized;
  }

  lemma AnswerReports(c: Config, s: State)
    requires HistoryOk(c, s) && CursorOk(c, s) && RequestsOk(c, s) && ResetOk(c, s) && s.phase.Await? && s.reply.Some?
    ensures ResetOk(c, DoPage(c, s))
  {
    var p, s' := s.reply.value, DoPage(c, s);
    AnswerConsumed(c, s);
    ResetsOnce(c, s);
    assert s.from.None? ==> s.lastSeq == 0;
    assert s.first.Some? && s.from.None? ==> s.out != [];
    hide HistoryOk, CursorOk, RequestsOk, PageOk;
    if p.reset {
      assert s'.out == [GapLine(s, true, 0)];
    } else {
      PageAdds(c, s);
      assert forall j :: 0 <= j < |s.out| ==> s'.out[j] == s.out[j];
    }
  }

  /** A page that is printed adds no reset marker. */
  lemma PageAdds(c: Config, s: State)
    requires s.phase.Await? && s.reply.Some? && !s.reply.value.reset
    ensures s.out <= DoPage(c, s).out
    ensures forall j :: |s.out| <= j < |DoPage(c, s).out| && DoPage(c, s).out[j].Gap? ==> !DoPage(c, s).out[j].reset
  {}

  lemma ConsumerReports(c: Config, s: State, step: Step)
    requires CursorOk(c, s) && ResetOk(c, s) && Enabled(c, s, step)
    requires step.ConsumerPoll? || step.ConsumerEvent? || step.ConsumerTake?
    ensures ResetOk(c, Apply(c, s, step))
  {
    assert s.from.Some?;
    hide CursorOk, ResetOk, FlagAllowed, DoPoll, DoEvent, DoTakeSignal;
    match step
    case ConsumerPoll => PollReports(c, s);
    case ConsumerEvent => EventReports(c, s);
    case ConsumerTake => TakeReports(c, s);
  }

  lemma PollReports(c: Config, s: State)
    requires ResetOk(c, s) && s.from.Some? && s.phase.Poll?
    ensures ResetOk(c, DoPoll(c, s))
  {
    hide ResetOk;
    var s' := DoPoll(c, s);
    SameResets(c, s, s', s'.out[|s.out|..]);
  }

  lemma EventReports(c: Config, s: State)
    requires ResetOk(c, s) && s.from.Some? && s.phase.Choose? && s.queue != []
    ensures ResetOk(c, DoEvent(c, s))
  {
    hide ResetOk;
    var s' := DoEvent(c, s);
    SameResets(c, s, s', s'.out[|s.out|..]);
  }

  lemma TakeReports(c: Config, s: State)
    requires ResetOk(c, s) && s.from.Some? && s.phase.TakeSignal?
    ensures ResetOk(c, DoTakeSignal(s))
  {
    hide ResetOk;
    var s' := DoTakeSignal(s);
    SameResets(c, s, s', s'.out[|s.out|..]);
  }

  /** A step that leaves output, start and cursor alone reports nothing. */
  lemma QuietStep(c: Config, s: State, s': State)
    requires CursorOk(c, s) && ResetOk(c, s)
    requires s'.out == s.out && s'.first == s.first && s'.from == s.from && s'.cursor == s.cursor && s'.staleStream == s.staleStream
    requires Paging(s) ==> Paging(s') || s'.phase.Stopped?
    requires s.phase.Stopped? ==> s'.phase.Stopped?
    ensures ResetOk(c, s')
  {
    assert s.out + [] == s.out;
    assert s.from.None? ==> Paging(s) || s.phase.Stopped?;
    hide CursorOk, ResetOk;
    SameResets(c, s, s', []);
  }

  /** The steps of daemon, link and read loop. */
  lemma LinkReports(c: Config, s: State, step: Step)
    requires CursorOk(c, s) && ResetOk(c, s) && Enabled(c, s, step)
    requires step.Ingest? || step.Disconnect? || step.Snapshot? || step.Answer? || step.ReaderTake? || step.ReaderOffer?
             || step.ReaderCount? || step.ReaderNotify?
    ensures ResetOk(c, Apply(c, s, step))
  {
    hide CursorOk, ResetOk, FlagAllowed, PageWith, Categorize, Wants;
    var s' := Apply(c, s, step);
    match step
    case Ingest(_, _) => QuietStep(c, s, s');
    case Disconnect => QuietStep(c, s, s');
    case Snapshot => QuietStep(c, s, s');
    case Answer(_) => QuietStep(c, s, s');
    case ReaderTake => QuietStep(c, s, s');
    case ReaderOffer => QuietStep(c, s, s');
    case ReaderCount => QuietStep(c, s, s');
    case ReaderNotify => QuietStep(c, s, s');
  }

  /** The consumer's steps that print nothing. */
  lemma OthersReport(c: Config, s: State, step: Step)
    requires CursorOk(c, s) && ResetOk(c, s) && Enabled(c, s, step)
    requires step.ConsumerAsk? || step.ConsumerCheck? || step.ConsumerSignal? || step.ConsumerStop?
    ensures ResetOk(c, Apply(c, s, step))
  {
    hide CursorOk, ResetOk, FlagAllowed;
    var s' := Apply(c, s, step);
    match step
    case ConsumerAsk => QuietStep(c, s, s');
    case ConsumerCheck => QuietStep(c, s, s');
    case ConsumerSignal => QuietStep(c, s, s');
    case ConsumerStop => QuietStep(c, s, s');
  }

  lemma ResetStep(c: Config, s: State, step: Step)
    requires Inv(c, s) && ResetOk(c, s) && Enabled(c, s, step)
    ensures ResetOk(c, Apply(c, s, step))
  {
    assert HistoryOk(c, s) && CursorOk(c, s) && (s.phase.Await? ==> RequestsOk(c, s));
    hide Inv, HistoryOk, CursorOk, RequestsOk, ResetOk, DoPage, DoPoll, DoEvent, DoTakeSignal, FlagAllowed, DoIngest, DoAnswer, DoTake, DoOffer;
    match step
    case ConsumerPage => AnswerReports(c, s);
    case ConsumerPoll => ConsumerReports(c, s, step);
    case ConsumerEvent => ConsumerReports(c, s, step);
    case ConsumerTake => ConsumerReports(c, s, step);
    case ConsumerAsk => OthersReport(c, s, step);
    case ConsumerCheck => OthersReport(c, s, step);
    case ConsumerSignal => OthersReport(c, s, step);
    case ConsumerStop => OthersReport(c, s, step);
    case _ => LinkReports(c, s, step);
  }

  lemma {:induction false} ResetRun(c: Config, s: State, steps: seq<Step>)
    requires Inv(c, s) && ResetOk(c, s)
    ensures ResetOk(c, Run(c, s, steps))
    decreases |steps|
  {
    hide Inv, ResetOk, Apply, Enabled;
    if steps != [] {
      if Enabled(c, s, steps[0]) {
        StepKeeps(c, s, steps[0]);
        ResetStep(c, s, steps[0]);
      }
      ResetRun(c, if Enabled(c, s, steps[0]) then Apply(c, s, steps[0]) else s, steps[1..]);
    }
  }

  /** A reset is reported if and only if the first answer came from a stream
      that cannot have given out the cursor: by one marker, ahead of every other
      line, and never again. */
  lemma ResetIsReported(c: Config, s0: State, steps: seq<Step>)
    requires Init(c, s0)
    ensures var s := Run(c, s0, steps);
            && (s.first.None? ==> s.out == [])
            && (s.first.Some? ==> (ResetAt(s.out, 0) <==> c.staleStream || c.since > s.first.value))
            && forall j :: 0 < j < |s.out| && s.out[j].Gap? ==> !s.out[j].reset
  {
    InitHolds(c, s0);
    hide Inv, ResetAt;
    ResetRun(c, s0, steps);
  }

  /** Seen from the start: a follower of another stream, or one that did not
      start where its cursor said, has told so first. */
  lemma ForeignStartIsReported(c: Config, s0: State, steps: seq<Step>)
    requires Init(c, s0)
    requires var s := Run(c, s0, steps); s.from.Some? && (c.staleStream || (c.since > 0 && s.from.value != c.since))
    ensures ResetAt(Run(c, s0, steps).out, 0)
  {
    InitHolds(c, s0);
    hide Inv, ResetAt;
    ResetRun(c, s0, steps);
  }
}
