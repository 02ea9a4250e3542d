/** `events --follow` as a step machine: the daemon's history, the FIFO link,
    the client's read loop with its bounded queue, and the consumer. Every
    step is one atomic action; any interleaving is a list of steps. */
module Follow {
  import opened Events
  import opened Wrappers
  import EventRing

  /** Capacity of the client's live-event channel. */
  const QUEUE_CAPACITY: nat := 256

  /** A run's constants. `subscribedAt` is the daemon's sequence when the
      subscription was confirmed. */
  datatype Config = Config(filter: Filter, limit: int, bufferSize: nat, since: int, staleStream: bool,
                           subscribedAt: nat)

  /** A live event with the number of events the queue dropped just before it. */
  datatype Tagged = Tagged(event: Event, droppedBefore: nat)

  datatype Message = Push(event: Event) | Response(page: Page)

  /** The read loop between two atomic actions. */
  datatype Reader = Idle | Holding(item: Tagged) | Counting | Notifying

  /** The daemon's handling of one page request: the ring is copied under the
      lock, the eviction tables are read afterwards. */
  datatype Server = NoRequest | Asked(since: int, staleStream: bool) | Snapped(since: int, staleStream: bool, n: nat)

  /** What the consumer resumes once a recovery pass is complete. */
  datatype Origin = Replaying | Resuming(held: Option<Event>)

  datatype Phase =
    | Request(origin: Origin)   // about to ask for the page after `cursor`
    | Await(origin: Origin)
    | Poll(origin: Origin)      // pages complete, about to take the drop counter
    | Check                     // top of the live loop: drop signal first
    | Choose                    // drop signal or next queued event
    | TakeSignal                // drop signal received, about to take the counter
    | Stopped

  /** One printed line. A gap marker reports the last delivered sequence `to`
      and why it was printed; `at` records how many events the daemon had
      ingested by then and is not printed. */
  datatype Line =
    | Printed(event: Event)
    | Gap(to: nat, reset: bool, clientDropped: nat, at: nat)
    | FollowingNow(lastSeq: nat)

  /** The last eight fields are history variables; no step reads them. */
  datatype State = State(
    history: seq<Event>,
    connected: bool,
    wire: seq<Message>,
    server: Server,
    reader: Reader,
    queue: seq<Tagged>,
    dropped: nat,
    token: bool,
    reply: Option<Page>,
    phase: Phase,
    cursor: int,
    lastSeq: nat,
    staleStream: bool,
    out: seq<Line>,
    sent: nat,             // events up to here were pushed when wanted
    read: nat,             // the read loop took every push up to here
    from: Option<nat>,     // where the first accepted page started
    resolved: nat,         // the consumer has settled everything up to here
    debt: nat,             // what a running recovery still has to settle
    episodes: nat,         // refusals of the queue that no earlier count still stood for
    bounds: map<nat, nat>, // for a marker that restarts from zero, its page's boundary
    first: Option<nat>)    // how far the stream had come at the first answer

  ghost predicate Init(c: Config, s: State) {
    && c.bufferSize > 0
    && Numbered(s.history) && Categorized(s.history) && |s.history| == c.subscribedAt
    && s == State(s.history, true, [], NoRequest, Idle, [], 0, false, None, Request(Replaying), c.since, 0,
                  c.staleStream, [], c.subscribedAt, c.subscribedAt, None, 0, c.subscribedAt, 0, map[], None)
  }

  datatype Step =
    | Ingest(target: string, eventType: string)
    | Disconnect
    | Snapshot
    | Answer(dropped: bool)
    | ReaderTake
    | ReaderOffer
    | ReaderCount
    | ReaderNotify
    | ConsumerAsk
    | ConsumerPage
    | ConsumerPoll
    | ConsumerCheck
    | ConsumerSignal
    | ConsumerEvent
    | ConsumerTake
    | ConsumerStop

  // -------------------------------------------------------------- the daemon

  function NextEvent(s: State, target: string, eventType: string): Event {
    Event(|s.history| + 1, Categorize(eventType), target)
  }

  /** Ring append and broadcast are one critical section. */
  function DoIngest(c: Config, s: State, e: Event): State {
    var s' := s.(history := s.history + [e]);
    if s.connected then
      s'.(sent := |s.history| + 1,
          wire := s.wire + if Wants(Live(c.filter), e) then [Push(e)] else [])
    else s'
  }

  /** The tables are read after the ring was copied, when more may be gone. */
  ghost predicate FlagAllowed(c: Config, s: State, dropped: bool)
    requires s.server.Snapped?
  {
    EventRing.FlagAt(s.history, c.filter, Evicted(|s.history|, c.bufferSize),
                     EffectiveCursor(s.server.since, s.server.staleStream, s.server.n), dropped)
  }

  function DoAnswer(c: Config, s: State, dropped: bool): State
    requires s.server.Snapped? && s.server.n <= |s.history|
  {
    var (since, stale, n) := (s.server.since, s.server.staleStream, s.server.n);
    var page := PageWith(s.history, n, c.bufferSize, c.filter, since, c.limit, stale, dropped);
    s.(server := NoRequest, wire := if s.connected then s.wire + [Response(page)] else s.wire)
  }

  // ----------------------------------------------------------- the read loop

  /** Takes one message; a push first swaps the drop counter into its tag. */
  function DoTake(s: State): State
    requires s.reader.Idle? && s.wire != []
  {
    match s.wire[0]
    case Push(e) =>
      s.(wire := s.wire[1..], reader := Holding(Tagged(e, s.dropped)), dropped := 0, read := e.number)
    case Response(p) =>
      s.(wire := s.wire[1..], reply := Some(p))
  }

  /** Never blocks: a full queue turns the event into a counted drop. The count
      an event brought along is replaced by the count of its own drop. */
  function DoOffer(s: State): State
    requires s.reader.Holding?
  {
    if |s.queue| < QUEUE_CAPACITY then s.(queue := s.queue + [s.reader.item], reader := Idle)
    else s.(reader := Counting, episodes := s.episodes + if s.reader.item.droppedBefore == 0 then 1 else 0)
  }

  // ------------------------------------------------------------ the consumer

  function Lines(events: seq<Event>): seq<Line> {
    seq(|events|, i requires 0 <= i < |events| => Printed(events[i]))
  }

  function GapLine(s: State, reset: bool, clientDropped: nat): Line {
    Gap(s.lastSeq, reset, clientDropped, |s.history|)
  }

  /** A reset restarts paging from zero; otherwise the page is printed. */
  function DoPage(c: Config, s: State): State
    requires s.phase.Await? && s.reply.Some?
  {
    var p := s.reply.value;
    var first := if s.first.Some? then s.first else Some(p.lastSeq);
    if p.reset then
      s.(first := first, reply := None, phase := Request(s.phase.origin), out := s.out + [GapLine(s, true, 0)],
         staleStream := false, cursor := 0, lastSeq := 0)
    else
      var eff := EffectiveCursor(s.cursor, s.staleStream, p.lastSeq);
      s.(first := first, reply := None,
         phase := if p.truncated then Request(s.phase.origin) else Poll(s.phase.origin),
         out := s.out + (if p.dropped then [GapLine(s, false, 0)] else []) + Lines(p.events),
         lastSeq := if p.events == [] then s.lastSeq else Max(s.lastSeq, p.events[|p.events| - 1].number),
         cursor := p.next,
         from := if s.from.Some? then s.from
                 else Some(if eff > 0 then eff else Evicted(p.lastSeq, c.bufferSize)),
         resolved := Max(s.resolved, Upto(p)),
         bounds := if FromZero(s) && s.out != [] then s.bounds[|s.out| - 1 := p.lastSeq] else s.bounds)
  }

  /** A recovery that began before anything was delivered. */
  predicate FromZero(s: State) {
    s.from.Some? && s.cursor <= 0
  }

  /** Reports a client-side overflow and starts replaying after the last
      delivered sequence. */
  function StartRecovery(s: State, origin: Origin, clientDropped: nat): State {
    s.(out := s.out + [GapLine(s, false, clientDropped)], cursor := s.lastSeq,
       phase := Request(origin), debt := |s.history|)
  }

  /** Prints a live event unless its target differs or it was already delivered. */
  function Handle(c: Config, s: State, e: Event): State {
    var settled := s.(phase := Check, resolved := Max(s.resolved, e.number));
    if c.filter.target != "" && e.target != c.filter.target then settled
    else if e.number <= s.lastSeq then settled
    else settled.(out := s.out + [Printed(e)], lastSeq := e.number)
  }

  function DoPoll(c: Config, s: State): State
    requires s.phase.Poll?
  {
    if s.dropped > 0 then
      StartRecovery(s.(dropped := 0), s.phase.origin, s.dropped)
    else
      match s.phase.origin
      case Replaying => s.(phase := Check, out := s.out + [FollowingNow(s.lastSeq)])
      case Resuming(None) => s.(phase := Check)
      case Resuming(Some(e)) => Handle(c, s, e)
  }

  function DoEvent(c: Config, s: State): State
    requires s.phase.Choose? && s.queue != []
  {
    var item := s.queue[0];
    var s' := s.(queue := s.queue[1..]);
    if item.droppedBefore > 0 then StartRecovery(s', Resuming(Some(item.event)), item.droppedBefore)
    else Handle(c, s', item.event)
  }

  function DoTakeSignal(s: State): State
    requires s.phase.TakeSignal?
  {
    if s.dropped > 0 then StartRecovery(s.(dropped := 0), Resuming(None), s.dropped)
    else s.(phase := Check)
  }

  // ------------------------------------------------------------------ runs

  ghost predicate Enabled(c: Config, s: State, step: Step) {
    match step
    case Ingest(_, _) => true
    case Disconnect => true
    case Snapshot => s.server.Asked?
    case Answer(dropped) => s.server.Snapped? && s.server.n <= |s.history| && FlagAllowed(c, s, dropped)
    case ReaderTake => s.reader.Idle? && s.wire != []
    case ReaderOffer => s.reader.Holding?
    case ReaderCount => s.reader.Counting?
    case ReaderNotify => s.reader.Notifying?
    case ConsumerAsk => s.phase.Request?
    case ConsumerPage => s.phase.Await? && s.reply.Some?
    case ConsumerPoll => s.phase.Poll?
    case ConsumerCheck => s.phase.Check?
    case ConsumerSignal => s.phase.Choose? && s.token
    case ConsumerEvent => s.phase.Choose? && s.queue != []
    case ConsumerTake => s.phase.TakeSignal?
    case ConsumerStop => true
  }

  ghost function Apply(c: Config, s: State, step: Step): State
    requires Enabled(c, s, step)
  {
    match step
    case Ingest(target, eventType) => DoIngest(c, s, NextEvent(s, target, eventType))
    case Disconnect => s.(connected := false)
    case Snapshot => s.(server := Snapped(s.server.since, s.server.staleStream, |s.history|))
    case Answer(dropped) => DoAnswer(c, s, dropped)
    case ReaderTake => DoTake(s)
    case ReaderOffer => DoOffer(s)
    case ReaderCount => s.(dropped := s.dropped + 1, reader := Notifying)
    case ReaderNotify => s.(token := true, reader := Idle)
    case ConsumerAsk => s.(server := Asked(s.cursor, s.staleStream), phase := Await(s.phase.origin))
    case ConsumerPage => DoPage(c, s)
    case ConsumerPoll => DoPoll(c, s)
    case ConsumerCheck => if s.token then s.(token := false, phase := TakeSignal) else s.(phase := Choose)
    case ConsumerSignal => s.(token := false, phase := TakeSignal)
    case ConsumerEvent => DoEvent(c, s)
    case ConsumerTake => DoTakeSignal(s)
    case ConsumerStop => s.(phase := Stopped)
  }

  /** The state after a list of steps; a step that is not enabled does nothing. */
  ghost function Run(c: Config, s: State, steps: seq<Step>): State
    decreases |steps|
  {
    if steps == [] then s
    else Run(c, if Enabled(c, s, steps[0]) then Apply(c, s, steps[0]) else s, steps[1..])
  }

  // ------------------------------------------------------ what is promised

  /** How far a marker speaks: up to what was ingested when it was printed, or,
      for one that restarts the replay from zero, up to the page it announced,
      because a page from zero carries no flag of its own. */
  function Reach(out: seq<Line>, bounds: map<nat, nat>, j: nat): nat
    requires j < |out| && out[j].Gap?
  {
    if j in bounds then bounds[j] else out[j].at
  }

  /** A gap marker covers sequence `q` when it reaches that far and nothing past
      `q` was printed before it. A reset marker covers nothing. */
  ghost predicate Covers(out: seq<Line>, bounds: map<nat, nat>, j: nat, q: nat) {
    && j < |out| && out[j].Gap? && !out[j].reset
    && q <= Reach(out, bounds, j)
    && forall k :: 0 <= k < j && out[k].Printed? ==> out[k].event.number < q
  }

  ghost predicate Marked(out: seq<Line>, bounds: map<nat, nat>, q: nat) {
    exists j: nat :: Covers(out, bounds, j, q)
  }

  /** Printed, or evicted from the ring and covered by a gap marker. */
  ghost predicate Accounted(c: Config, s: State, i: nat)
    requires i < |s.history|
  {
    || Printed(s.history[i]) in s.out
    || (i < Evicted(|s.history|, c.bufferSize) && Marked(s.out, s.bounds, i + 1))
  }

  /** The tables that the follower's pages rest on never overflowed. */
  ghost predicate Complete(c: Config, s: State) {
    EventRing.Unambiguous(c.filter) && EventRing.TableComplete(c.filter, s.history, Evicted(|s.history|, c.bufferSize))
  }

  /** Every matching event past the start and up to `upto` is accounted for. */
  ghost predicate AllAccounted(c: Config, s: State, upto: nat) {
    s.from.Some? ==>
      forall i :: s.from.value <= i < upto && i < |s.history| && Matches(c.filter, s.history[i]) ==>
        Accounted(c, s, i)
  }

  ghost predicate InOrder(out: seq<Line>) {
    forall j, k :: 0 <= j < k < |out| && out[j].Printed? && out[k].Printed? ==>
      out[j].event.number < out[k].event.number
  }

  /** A marker has a cause: the cursor belonged to another stream, a matching
      event past the last delivered one was evicted, or it is one of at most as
      many client markers as the queue had overflows. */
  ghost predicate Genuine(c: Config, s: State, j: nat)
    requires j < |s.out| && s.out[j].Gap?
  {
    if s.out[j].reset then c.staleStream || c.since > c.subscribedAt
    else if s.out[j].clientDropped > 0 then s.out[j].clientDropped == 1 && Reported(s.out[..j + 1]) <= s.episodes
    else SomeMatch(s.history, c.filter, s.out[j].to, Evicted(|s.history|, c.bufferSize))
  }

  /** The sum of the counts that client markers reported. */
  function Reported(out: seq<Line>): nat {
    if out == [] then 0
    else Reported(out[..|out| - 1]) +
         var line := out[|out| - 1]; if line.Gap? then line.clientDropped else 0
  }

  function Tags(queue: seq<Tagged>): nat {
    if queue == [] then 0 else queue[0].droppedBefore + Tags(queue[1..])
  }

  /** Counts on their way to the consumer. */
  function Outstanding(s: State): nat {
    s.dropped + Tags(s.queue)
    + match s.reader
      case Holding(item) => item.droppedBefore
      case Counting => 1
      case _ => 0
  }

  /** A line that tells of a restart from zero, with nothing delivered before. */
  predicate ResetAt(out: seq<Line>, j: nat) {
    j < |out| && out[j].Gap? && out[j].reset && out[j].to == 0
  }

  /** The cursor was given out by this stream before the subscription. */
  predicate OwnCursor(c: Config) {
    !c.staleStream && 0 < c.since <= c.subscribedAt
  }

  ghost predicate PrintedBelow(c: Config, s: State) {
    exists k :: 0 <= k < |s.out| && s.out[k].Printed? && s.out[k].event.number <= c.since
  }

  /** Some recovery restarted from zero while the ring still held a matching
      event that the cursor had asked to skip. */
  ghost predicate RestartedBelow(c: Config, s: State) {
    c.since > 0 && exists j :: j in s.bounds && SomeMatch(s.history, c.filter, Evicted(s.bounds[j], c.bufferSize), c.since)
  }
}
