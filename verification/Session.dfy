/** The session of one target: a game server that keeps a bounded ring of its own
    events, and the daemon's reconnect loop that offers a cursor, takes the
    replay, and reports what the server could not replay. */
module Session {
  datatype Envelope = Envelope(run: string, number: nat)

  /** The event cursor a daemon stores for a target. */
  datatype Cursor = Cursor(instanceId: string, run: string, last: nat)

  /** What the session puts into the daemon's own stream, in order. A gap names
      the numbers it stands for; for a replay that was cut short they end where
      the replay starts, which its notice leaves to the next event to show. */
  datatype Ingested =
    | Connected(run: string)
    | Disconnected
    | Restarted(oldRun: string, newRun: string)
    | FromServer(run: string, number: nat)
    | Gap(run: string, from: nat, upto: nat)

  const PERSIST_EVERY: nat := 64

  // ----------------------------------------------------- the promise, on logs

  /** The entry is event `n` of the run, or a reported gap that includes it. */
  predicate Answers(entry: Ingested, run: string, n: nat) {
    || entry == FromServer(run, n)
    || (entry.Gap? && entry.run == run && entry.from <= n <= entry.upto)
  }

  ghost predicate Answered(log: seq<Ingested>, run: string, n: nat) {
    exists i :: 0 <= i < |log| && Answers(log[i], run, n)
  }

  /** Within a run the events come in strictly increasing order: none twice. */
  ghost predicate Increasing(log: seq<Ingested>) {
    forall i, j :: 0 <= i < j < |log| && log[i].FromServer? && log[j].FromServer? && log[i].run == log[j].run ==>
      log[i].number < log[j].number
  }

  /** Before an event is ingested, every earlier one of its run after the
      starting point was ingested or reported as a gap. */
  ghost predicate NothingSilent(log: seq<Ingested>, firstRun: string, base: nat) {
    forall j, n :: 0 <= j < |log| && log[j].FromServer? && BaseOf(log[j].run, firstRun, base) < n < log[j].number ==>
      Answered(log[..j], log[j].run, n)
  }

  /** Where this process starts: after the persisted cursor in the run it first
      meets, at the beginning of every later run. */
  function BaseOf(run: string, firstRun: string, base: nat): nat {
    if run == firstRun then base else 0
  }

  ghost predicate AnsweredBelow(log: seq<Ingested>, run: string, base: nat, limit: nat) {
    forall n :: base < n < limit ==> Answered(log, run, n)
  }

  /** No event of the run in the log is at or past the limit. */
  ghost predicate AllBelow(log: seq<Ingested>, run: string, limit: nat) {
    forall i :: 0 <= i < |log| && log[i].FromServer? && log[i].run == run ==> log[i].number < limit
  }

  ghost predicate KnownRuns(log: seq<Ingested>, runs: set<string>) {
    forall i :: 0 <= i < |log| && log[i].FromServer? ==> log[i].run in runs
  }

  ghost predicate Promise(log: seq<Ingested>, firstRun: string, base: nat) {
    Increasing(log) && NothingSilent(log, firstRun, base)
  }

  lemma AnsweredBelowGrows(log: seq<Ingested>, more: seq<Ingested>, run: string, base: nat, limit: nat)
    requires AnsweredBelow(log, run, base, limit)
    ensures AnsweredBelow(log + more, run, base, limit)
  {
    forall n | base < n < limit ensures Answered(log + more, run, n) {
      assert Answered(log, run, n);
      var i :| 0 <= i < |log| && Answers(log[i], run, n);
      assert (log + more)[i] == log[i];
    }
  }

  /** A notice never disturbs the promise. */
  lemma NoticeKeeps(log: seq<Ingested>, notice: Ingested, firstRun: string, base: nat)
    requires Promise(log, firstRun, base) && !notice.FromServer?
    ensures Promise(log + [notice], firstRun, base)
    ensures forall run, limit :: AllBelow(log, run, limit) ==> AllBelow(log + [notice], run, limit)
    ensures forall runs :: KnownRuns(log, runs) ==> KnownRuns(log + [notice], runs)
    ensures forall run, from, limit :: AnsweredBelow(log, run, from, limit) ==> AnsweredBelow(log + [notice], run, from, limit)
  {
    var all := log + [notice];
    forall run, from, limit | AnsweredBelow(log, run, from, limit) ensures AnsweredBelow(log + [notice], run, from, limit) {
      AnsweredBelowGrows(log, [notice], run, from, limit);
    }
    forall j, n | 0 <= j < |all| && all[j].FromServer? && BaseOf(all[j].run, firstRun, base) < n < all[j].number
      ensures Answered(all[..j], all[j].run, n)
    {
      assert all[..j] == log[..j] && all[j] == log[j];
    }
  }

  /** A gap answers for what it reports. */
  lemma GapAnswers(log: seq<Ingested>, gap: Ingested, run: string, base: nat, limit: nat)
    requires gap.Gap? && gap.run == run && AnsweredBelow(log, run, base, gap.from)
    requires limit <= gap.upto + 1
    ensures AnsweredBelow(log + [gap], run, base, limit)
  {
    AnsweredBelowGrows(log, [gap], run, base, gap.from);
    forall n | base < n < limit ensures Answered(log + [gap], run, n) {
      if n >= gap.from {
        assert Answers((log + [gap])[|log|], run, n);
      }
    }
  }

  /** The next event in line keeps the promise. */
  lemma EventKeeps(log: seq<Ingested>, run: string, number: nat, firstRun: string, base: nat)
    requires Promise(log, firstRun, base) && AllBelow(log, run, number)
    requires AnsweredBelow(log, run, BaseOf(run, firstRun, base), number)
    ensures Promise(log + [FromServer(run, number)], firstRun, base)
    ensures AllBelow(log + [FromServer(run, number)], run, number + 1)
    ensures forall other, limit :: other != run && AllBelow(log, other, limit) ==> AllBelow(log + [FromServer(run, number)], other, limit)
    ensures forall runs :: KnownRuns(log, runs) && run in runs ==> KnownRuns(log + [FromServer(run, number)], runs)
    ensures AnsweredBelow(log + [FromServer(run, number)], run, BaseOf(run, firstRun, base), number + 1)
  {
    var all := log + [FromServer(run, number)];
    forall j, n | 0 <= j < |all| && all[j].FromServer? && BaseOf(all[j].run, firstRun, base) < n < all[j].number
      ensures Answered(all[..j], all[j].run, n)
    {
      if j < |log| {
        assert all[..j] == log[..j] && all[j] == log[j];
      } else {
        assert all[..j] == log;
      }
    }
    AnsweredBelowGrows(log, [FromServer(run, number)], run, BaseOf(run, firstRun, base), number);
    assert Answers(all[|log|], run, number);
  }

  /** Before anything was taken, any starting point will do. */
  lemma FreshStart(log: seq<Ingested>, firstRun: string, base: nat, newRun: string, newBase: nat)
    requires Promise(log, firstRun, base) && KnownRuns(log, {})
    ensures Promise(log, newRun, newBase) && AllBelow(log, newRun, 0)
    ensures forall runs :: KnownRuns(log, runs)
  {}

  lemma Weaken(log: seq<Ingested>, run: string, base: nat)
    ensures forall a, b :: a <= b && AllBelow(log, run, a) ==> AllBelow(log, run, b)
    ensures forall a, b :: a <= b && AnsweredBelow(log, run, base, b) ==> AnsweredBelow(log, run, base, a)
    ensures AnsweredBelow(log, run, base, base + 1)
  {}

  // ---------------------------------------------------------- the stored cursor

  /** The last event of the run in the log, 0 if there is none. */
  function LastIngested(log: seq<Ingested>, run: string): nat {
    if log == [] then 0
    else
      var last := log[|log| - 1];
      if last.FromServer? && last.run == run then last.number else LastIngested(log[..|log| - 1], run)
  }

  /** Events taken since the last connect. */
  function Deliveries(log: seq<Ingested>): nat {
    if log == [] || log[|log| - 1].Connected? then 0
    else Deliveries(log[..|log| - 1]) + if log[|log| - 1].FromServer? then 1 else 0
  }

  /** The log ends where the code stores the cursor: at a connect, at the end of
      a connection, and at every event from the 64th of a connection on. */
  predicate StoresCursor(log: seq<Ingested>) {
    log != [] &&
    var last := log[|log| - 1];
    last.Connected? || last.Disconnected? || (last.FromServer? && Deliveries(log) >= PERSIST_EVERY)
  }

  /** What the store holds after the log. */
  function Stored(log: seq<Ingested>, run: string): nat {
    if log == [] then 0
    else if StoresCursor(log) then LastIngested(log, run)
    else Stored(log[..|log| - 1], run)
  }

  /** No event at or past `p` had been ingested at any point where the cursor
      was stored. */
  ghost predicate NeverStored(log: seq<Ingested>, run: string, p: nat) {
    forall k :: 0 < k <= |log| && StoresCursor(log[..k]) ==> AllBelow(log[..k], run, p)
  }

  lemma {:induction false} LastIsHighest(log: seq<Ingested>, run: string, p: nat)
    requires Increasing(log) && p > 0
    ensures LastIngested(log, run) < p <==> AllBelow(log, run, p)
    decreases |log|
  {
    if log != [] {
      var before := log[..|log| - 1];
      LastIsHighest(before, run, p);
      assert log == before + [log[|log| - 1]];
    }
  }

  lemma StoredSnoc(log: seq<Ingested>, entry: Ingested, run: string)
    ensures var all := log + [entry];
            && LastIngested(all, run) == (if entry.FromServer? && entry.run == run then entry.number else LastIngested(log, run))
            && Deliveries(all) == (if entry.Connected? then 0 else Deliveries(log) + if entry.FromServer? then 1 else 0)
            && Stored(all, run) == if StoresCursor(all) then LastIngested(all, run) else Stored(log, run)
  {
    assert (log + [entry])[..|log|] == log;
  }

  /** The stored cursor lies below a position if and only if no event from that
      position on was ever in when the cursor was stored. */
  lemma {:induction false} StoredBelow(log: seq<Ingested>, run: string, p: nat)
    requires Increasing(log) && p > 0
    ensures Stored(log, run) < p <==> NeverStored(log, run, p)
    decreases |log|
  {
    if log != [] {
      var before := log[..|log| - 1];
      StoredBelow(before, run, p);
      assert log[..|log|] == log;
      assert forall k :: 0 < k < |log| ==> log[..k] == before[..k];
      hide StoresCursor, Increasing;
      if StoresCursor(log) {
        LastIsHighest(log, run, p);
        if AllBelow(log, run, p) {
          forall k | 0 < k <= |log| ensures AllBelow(log[..k], run, p) {
            PrefixBelow(log, k, run, p);
          }
        }
      }
    }
  }

  lemma PrefixBelow(log: seq<Ingested>, k: nat, run: string, p: nat)
    requires k <= |log| && AllBelow(log, run, p)
    ensures AllBelow(log[..k], run, p)
  {
    forall i | 0 <= i < k && log[..k][i].FromServer? && log[..k][i].run == run ensures log[..k][i].number < p {
      assert log[..k][i] == log[i];
    }
  }

  /** In the first connection, which takes only events past the cursor it
      offered, the stored cursor is below it exactly until the 64th event. */
  lemma {:induction false} FirstConnectionStores(log: seq<Ingested>, run: string, offered: nat)
    requires offered > 0 && log != [] && log[0] == Connected(run)
    requires forall i :: 0 < i < |log| ==> !log[i].Connected? && !log[i].Disconnected?
    requires forall i :: 0 <= i < |log| && log[i].FromServer? ==> log[i].run == run && log[i].number > offered
    ensures Stored(log, run) < offered <==> Deliveries(log) < 64
    decreases |log|
  {
    var before := log[..|log| - 1];
    if |log| == 1 {
      assert before == [] && LastIngested(before, run) == 0;
      assert LastIngested(log, run) == 0 && StoresCursor(log) && Deliveries(log) == 0;
    } else {
      FirstConnectionStores(before, run, offered);
    }
  }

  // --------------------------------------------------------------- the server

  /** The frames numbered after `before` up to `newest`. */
  function Frames(run: string, before: nat, newest: nat): seq<Envelope>
    requires before <= newest
  {
    seq(newest - before, k requires 0 <= k => Envelope(run, before + 1 + k))
  }

  /** The control server with one connection. `outbox` holds the frames of that
      connection that its peer has not taken yet. */
  class Server {
    const ringSize: nat
    var instanceId: string
    var run: string
    var newest: nat
    var ring: seq<Envelope>
    var linked: bool
    var outbox: seq<Envelope>
    /** Every run id used so far. */
    var runs: set<string>

    ghost predicate Valid()
      reads `run, `newest, `ring, `runs
    {
      && ringSize > 0 && run in runs && "" !in runs
      && |ring| == (if newest < ringSize then newest else ringSize)
      && (forall k :: 0 <= k < |ring| ==> ring[k] == Envelope(run, newest - |ring| + 1 + k))
    }

    constructor (ringSize: nat, instanceId: string, run: string)
      requires ringSize > 0 && run != ""
      ensures Valid() && this.run == run && newest == 0 && !linked && outbox == []
    {
      this.ringSize, this.instanceId, this.run := ringSize, instanceId, run;
      newest, ring, linked, outbox := 0, [], false, [];
      runs := {run};
    }

    /** Publishes an event: into the ring, and to a live connection. */
    method Push()
      requires Valid()
      modifies `newest, `ring, `outbox
      ensures Valid()
      ensures newest == old(newest) + 1
      ensures outbox == if linked then old(outbox) + [Envelope(run, newest)] else old(outbox)
    {
      newest := newest + 1;
      ring := ring + [Envelope(run, newest)];
      if |ring| > ringSize {
        ring := ring[|ring| - ringSize..];
      }
      if linked {
        outbox := outbox + [Envelope(run, newest)];
      }
    }

    /** A new run: an empty stream, and the live connection is dropped. */
    method Restart(newInstance: string, newRun: string)
      requires Valid() && newRun != "" && newRun !in runs
      modifies `instanceId, `run, `newest, `ring, `linked, `runs
      ensures Valid() && run == newRun && newest == 0 && !linked
      ensures runs == old(runs) + {newRun} && instanceId == newInstance
    {
      instanceId, run, newest, ring, linked := newInstance, newRun, 0, [], false;
      runs := runs + {newRun};
    }

    /** Answers a hello: which events follow the offered cursor, and whether any
        that should have followed is gone. */
    method Welcome(helloRun: string, helloLast: nat) returns (lost: bool, ghost effective: nat)
      requires Valid()
      modifies `linked, `outbox
      ensures linked
      ensures effective == if (helloRun != "" && helloRun != run) || helloLast > newest then 0 else helloLast
      ensures outbox == Frames(run, Before(effective), newest)
      ensures lost <==> (helloRun != "" && helloRun != run) || helloLast > newest || effective < Before(effective)
    {
      lost := false;
      var since := helloLast;
      if helloRun != "" && helloRun != run {
        since, lost := 0, true;
      }
      if since > newest {
        since, lost := 0, true;
      }
      var events := Replay(since);
      var oldest := if |ring| > 0 then ring[0].number else 0;
      if newest > 0 && since + 1 < oldest {
        lost := true;
      }
      linked, outbox := true, events;
      effective := since;
    }

    /** The ring events after the cursor are consecutive up to the newest. */
    method Replay(since: nat) returns (events: seq<Envelope>)
      requires Valid() && since <= newest
      ensures events == Frames(run, Before(since), newest)
    {
      events := [];
      for k := 0 to |ring|
        invariant events == ring[Skipped(since, k)..k]
      {
        if ring[k].number > since {
          events := events + [ring[k]];
        }
      }
    }

    /** How many of the first k ring events are not after the cursor. */
    ghost function Skipped(since: nat, k: nat): (r: nat)
      requires Valid() && since <= newest && k <= |ring|
      reads this
      ensures r <= k
    {
      if since < newest - |ring| then 0 else if since - (newest - |ring|) < k then since - (newest - |ring|) else k
    }

    /** The number just before the first replayed event. */
    ghost function Before(effective: nat): (r: nat)
      requires Valid() && effective <= newest
      reads this
      ensures effective <= r <= newest
    {
      if effective < newest - |ring| then newest - |ring| else effective
    }
  }

  // -------------------------------------------------------------- the session

  predicate Same(a: string, b: string) {
    a != "" && b != "" && a == b
  }

  /** Another run, or another instance, than the cursor belongs to. */
  predicate Replaced(previous: Cursor, instanceId: string, run: string) {
    || (previous.run != "" && run != "" && previous.run != run)
    || (previous.instanceId != "" && instanceId != "" && previous.instanceId != instanceId)
  }

  /** Both are known, and they are not the same. */
  predicate Differ(a: string, b: string) {
    !Same(a, b) && a != "" && b != ""
  }

  lemma WhatReplaces(previous: Cursor, instanceId: string, run: string)
    ensures Replaced(previous, instanceId, run) <==> Differ(previous.run, run) || Differ(previous.instanceId, instanceId)
  {}

  class TargetSession {
    const server: Server
    var cursor: Cursor
    var lastSeq: nat
    var everConnect: bool
    var connected: bool
    var stateInstance: string
    var stateRun: string
    var eventsSincePersist: nat

    ghost var log: seq<Ingested>
    ghost var firstRun: string
    ghost var base: nat
    /** The number the next frame of this connection carries. */
    ghost var next: nat

    ghost predicate Valid()
      reads this, server
    {
      && server.Valid()
      && Promise(log, firstRun, base)
      && (!everConnect ==> lastSeq == 0)
      && KnownRuns(log, if everConnect then server.runs else {})
      && (stateRun != server.run ==> AllBelow(log, server.run, 0))
      && (everConnect && stateRun == server.run ==> lastSeq <= server.newest)
      && (everConnect ==> stateRun in server.runs && firstRun in server.runs)
      && (everConnect ==> AllBelow(log, stateRun, lastSeq + 1))
      && (everConnect ==> AnsweredBelow(log, stateRun, BaseOf(stateRun, firstRun, base), if connected then next else lastSeq + 1))
      && (everConnect && !connected ==> cursor == Cursor(stateInstance, stateRun, lastSeq))
      && (everConnect ==> cursor == Cursor(stateInstance, stateRun, Stored(log, stateRun)))
      && (everConnect ==> lastSeq == LastIngested(log, stateRun))
      && (connected ==> eventsSincePersist == Deliveries(log))
      && (if connected then everConnect && lastSeq < next && Streaming() else !server.linked && server.outbox == [])
    }

    /** The unread frames are consecutive, and on a live link they reach up to
        the newest event. */
    ghost predicate Streaming()
      reads this, server
    {
      && (forall k :: 0 <= k < |server.outbox| ==> server.outbox[k] == Envelope(stateRun, next + k))
      && (stateRun == server.run ==> next + |server.outbox| <= server.newest + 1)
      && (server.linked ==> stateRun == server.run && next + |server.outbox| == server.newest + 1)
    }

    /** A daemon process starts with whatever cursor the disk holds. */
    constructor (server: Server, persisted: Cursor)
      requires server.Valid() && !server.linked && server.outbox == []
      ensures Valid() && this.server == server && cursor == persisted && !everConnect && !connected
      ensures log == [] && base == 0
    {
      this.server, cursor := server, persisted;
      lastSeq, everConnect, connected, stateInstance, stateRun, eventsSincePersist := 0, false, false, "", "", 0;
      log, firstRun, base, next := [], "", 0, 0;
    }

    /** The notices a connection starts with. */
    method Announce(restarted: bool, oldRun: string, lost: bool, ghost runs: set<string>, ghost limit: nat)
      requires Promise(log, firstRun, base) && KnownRuns(log, runs) && AllBelow(log, stateRun, lastSeq + 1)
      requires limit > 0 && lastSeq == LastIngested(log, stateRun)
      requires AnsweredBelow(log, stateRun, BaseOf(stateRun, firstRun, base), if lost then lastSeq + 1 else limit)
      modifies `log
      ensures Promise(log, firstRun, base) && KnownRuns(log, runs) && AllBelow(log, stateRun, lastSeq + 1)
      ensures AnsweredBelow(log, stateRun, BaseOf(stateRun, firstRun, base), limit)
      ensures log == old(log) + [Connected(stateRun)] + (if restarted then [Restarted(oldRun, stateRun)] else [])
                     + if lost then [Gap(stateRun, lastSeq + 1, limit - 1)] else []
      ensures lastSeq == LastIngested(log, stateRun) == Stored(log, stateRun) && Deliveries(log) == 0
    {
      hide Promise, KnownRuns, AllBelow, AnsweredBelow, BaseOf, LastIngested, Stored, Deliveries;
      NoticeKeeps(log, Connected(stateRun), firstRun, base);
      StoredSnoc(log, Connected(stateRun), stateRun);
      log := log + [Connected(stateRun)];
      if restarted {
        NoticeKeeps(log, Restarted(oldRun, stateRun), firstRun, base);
        StoredSnoc(log, Restarted(oldRun, stateRun), stateRun);
        log := log + [Restarted(oldRun, stateRun)];
      }
      if lost {
        var gap := Gap(stateRun, lastSeq + 1, limit - 1);
        NoticeKeeps(log, gap, firstRun, base);
        StoredSnoc(log, gap, stateRun);
        GapAnswers(log, gap, stateRun, BaseOf(stateRun, firstRun, base), limit);
        log := log + [gap];
      }
    }

    /** Connects, and reports in the stream whatever the replay cannot cover. */
    method Connect() returns (ghost lost: bool, ghost restarted: bool)
      requires Valid() && !connected
      modifies this, server`linked, server`outbox
      ensures Valid() && connected && everConnect && server.linked
      ensures stateRun == server.run && stateInstance == server.instanceId
      ensures log == old(log) + [Connected(stateRun)] + (if restarted then [Restarted(old(cursor).run, stateRun)] else [])
                     + if lost then [Gap(stateRun, lastSeq + 1, next - 1)] else []
      ensures lastSeq == if old(cursor).run == server.run then old(lastSeq) else 0
      ensures restarted <==>
                old(everConnect) && (Differ(old(cursor).run, server.run) || Differ(old(cursor).instanceId, server.instanceId))
      ensures old(cursor).run != "" && old(cursor).run != server.run ==> lost
      ensures !lost ==> next == old(cursor).last + 1
      ensures cursor == Cursor(server.instanceId, server.run, lastSeq)
      ensures old(everConnect) ==> firstRun == old(firstRun) && base == old(base)
      ensures !old(everConnect) ==> firstRun == server.run
      ensures !old(everConnect) ==> base == old(cursor).last || (base == 0 && lost)
      ensures !old(everConnect) && base > 0 ==> old(cursor).run == "" || old(cursor).run == server.run
    {
      WhatReplaces(cursor, server.instanceId, server.run);
      hide Promise, KnownRuns, AllBelow, AnsweredBelow, BaseOf, Server.Before, Replaced, LastIngested, Stored, Deliveries;
      var previous := cursor;
      var gone: bool;
      ghost var effective;
      gone, effective := server.Welcome(previous.run, previous.last);
      var sameRun := Same(previous.run, server.run);
      var changed := everConnect && Replaced(previous, server.instanceId, server.run);
      lost, restarted := gone, changed;
      ghost var before := server.Before(effective);
      Resume(effective, before, gone, if sameRun then lastSeq else 0,
             if everConnect then firstRun else server.run, if everConnect then base else effective);
      Begin(sameRun, changed, gone, effective, before);
    }

    /** Adopts the new connection: its run, its sequence, its first notices. */
    method Begin(sameRun: bool, changed: bool, gone: bool, ghost effective: nat, ghost before: nat)
      requires Promise(log, if everConnect then firstRun else server.run, if everConnect then base else effective)
      requires KnownRuns(log, server.runs) && AllBelow(log, server.run, (if sameRun then lastSeq else 0) + 1)
      requires AnsweredBelow(log, server.run,
                 BaseOf(server.run, if everConnect then firstRun else server.run, if everConnect then base else effective),
                 if gone then (if sameRun then lastSeq else 0) + 1 else before + 1)
      requires LastIngested(log, server.run) == if sameRun then lastSeq else 0
      modifies this
      ensures Promise(log, firstRun, base) && KnownRuns(log, server.runs) && AllBelow(log, stateRun, lastSeq + 1)
      ensures AnsweredBelow(log, stateRun, BaseOf(stateRun, firstRun, base), next)
      ensures connected && everConnect && next == before + 1 && eventsSincePersist == 0
      ensures lastSeq == LastIngested(log, stateRun) == Stored(log, stateRun) && Deliveries(log) == 0
      ensures stateRun == server.run && stateInstance == server.instanceId
      ensures lastSeq == if sameRun then old(lastSeq) else 0
      ensures cursor == Cursor(server.instanceId, server.run, lastSeq)
      ensures if old(everConnect) then firstRun == old(firstRun) && base == old(base) else firstRun == server.run && base == effective
      ensures log == old(log) + [Connected(stateRun)] + (if changed then [Restarted(old(cursor).run, stateRun)] else [])
                     + if gone then [Gap(stateRun, lastSeq + 1, next - 1)] else []
    {
      hide Promise, KnownRuns, AllBelow, AnsweredBelow, BaseOf, LastIngested, Stored, Deliveries;
      var oldRun := cursor.run;
      stateInstance, stateRun, connected := server.instanceId, server.run, true;
      if !sameRun {
        lastSeq := 0;
      }
      eventsSincePersist := 0;
      cursor := Cursor(stateInstance, stateRun, lastSeq);
      if !everConnect {
        firstRun, base := stateRun, effective;
      }
      next := before + 1;
      everConnect := true;
      Announce(changed, oldRun, gone, server.runs, next);
    }

    /** What a connection starts from: the sequence number it keeps, the starting
        point, and how far everything is already answered for. */
    lemma Resume(effective: nat, before: nat, gone: bool, last: nat, first: string, from: nat)
      requires Promise(log, firstRun, base) && KnownRuns(log, if everConnect then server.runs else {})
      requires stateRun != server.run ==> AllBelow(log, server.run, 0)
      requires everConnect ==> AllBelow(log, stateRun, lastSeq + 1)
      requires everConnect ==> AnsweredBelow(log, stateRun, BaseOf(stateRun, firstRun, base), lastSeq + 1)
      requires everConnect ==> cursor.run == stateRun && cursor.last == lastSeq && first == firstRun && from == base
      requires !everConnect ==> lastSeq == 0 && first == server.run && from == effective
      requires last == if cursor.run == server.run then lastSeq else 0
      requires everConnect ==> lastSeq == LastIngested(log, stateRun)
      requires !gone ==> before == effective && (everConnect ==> cursor.run == server.run && effective == cursor.last)
      ensures Promise(log, first, from) && KnownRuns(log, server.runs) && AllBelow(log, server.run, last + 1)
      ensures AnsweredBelow(log, server.run, BaseOf(server.run, first, from), if gone then last + 1 else before + 1)
      ensures LastIngested(log, server.run) == last
    {
      if !everConnect || stateRun != server.run {
        assert AllBelow(log, server.run, 1);
        LastIsHighest(log, server.run, 1);
      }
      hide Promise, KnownRuns, AllBelow, AnsweredBelow, LastIngested;
      Weaken(log, server.run, BaseOf(server.run, first, from));
      if !everConnect {
        FreshStart(log, firstRun, base, server.run, effective);
      }
    }

    /** Puts an event into the stream, after a notice if its number jumps. */
    method Ingest(event: Envelope, ghost runs: set<string>, ghost other: string)
      requires Promise(log, firstRun, base) && KnownRuns(log, runs) && event.run in runs && event.run == stateRun != ""
      requires lastSeq < event.number && AllBelow(log, stateRun, lastSeq + 1)
      requires AnsweredBelow(log, stateRun, BaseOf(stateRun, firstRun, base), event.number)
      modifies `log
      ensures LastIngested(log, stateRun) == event.number && Deliveries(log) == Deliveries(old(log)) + 1
      ensures Stored(log, stateRun) == if Deliveries(log) >= PERSIST_EVERY then event.number else Stored(old(log), stateRun)
      ensures Promise(log, firstRun, base) && KnownRuns(log, runs) && AllBelow(log, stateRun, event.number + 1)
      ensures AnsweredBelow(log, stateRun, BaseOf(stateRun, firstRun, base), event.number + 1)
      ensures other != stateRun && AllBelow(old(log), other, 0) ==> AllBelow(log, other, 0)
      ensures log == old(log)
                     + (if lastSeq > 0 && event.number > lastSeq + 1
                        then [Gap(stateRun, lastSeq + 1, event.number - 1)] else [])
                     + [FromServer(stateRun, event.number)]
    {
      hide Promise, KnownRuns, AllBelow, AnsweredBelow, BaseOf, LastIngested, Stored, Deliveries;
      if lastSeq > 0 && event.number > lastSeq + 1 && event.run != "" && event.run == stateRun {
        NoticeKeeps(log, Gap(event.run, lastSeq + 1, event.number - 1), firstRun, base);
        StoredSnoc(log, Gap(event.run, lastSeq + 1, event.number - 1), stateRun);
        log := log + [Gap(event.run, lastSeq + 1, event.number - 1)];
      }
      Weaken(log, stateRun, BaseOf(stateRun, firstRun, base));
      EventKeeps(log, event.run, event.number, firstRun, base);
      StoredSnoc(log, FromServer(event.run, event.number), stateRun);
      log := log + [FromServer(event.run, event.number)];
    }

    /** Takes the next frame of the connection. */
    method Deliver()
      requires Valid() && connected && server.outbox != []
      modifies this, server`outbox
      ensures Valid() && connected && firstRun == old(firstRun) && base == old(base)
      ensures lastSeq == old(server.outbox)[0].number > old(lastSeq)
      ensures server.outbox == old(server.outbox)[1..]
      ensures log == old(log)
                     + (if old(lastSeq) > 0 && lastSeq > old(lastSeq) + 1
                        then [Gap(stateRun, old(lastSeq) + 1, lastSeq - 1)] else [])
                     + [FromServer(stateRun, lastSeq)]
    {
      hide Promise, KnownRuns, AllBelow, AnsweredBelow, BaseOf, LastIngested, Stored, Deliveries;
      var event := server.outbox[0];
      server.outbox := server.outbox[1..];
      Ingest(event, server.runs, server.run);
      if event.number > lastSeq {
        lastSeq := event.number;
      }
      eventsSincePersist := eventsSincePersist + 1;
      if eventsSincePersist >= PERSIST_EVERY {
        cursor := Cursor(stateInstance, stateRun, lastSeq);
      }
      next := next + 1;
    }

    /** The connection ends; whatever was not taken from it is dropped. */
    method Disconnect()
      requires Valid() && connected
      modifies this, server`linked, server`outbox
      ensures Valid() && !connected && everConnect && lastSeq == old(lastSeq)
      ensures stateRun == old(stateRun) && stateInstance == old(stateInstance)
      ensures firstRun == old(firstRun) && base == old(base)
      ensures cursor == Cursor(stateInstance, stateRun, lastSeq)
      ensures log == old(log) + [Disconnected]
    {
      hide Promise, KnownRuns, AllBelow, AnsweredBelow, LastIngested, Stored, Deliveries;
      Weaken(log, stateRun, BaseOf(stateRun, firstRun, base));
      NoticeKeeps(log, Disconnected, firstRun, base);
      StoredSnoc(log, Disconnected, stateRun);
      server.linked, server.outbox := false, [];
      connected := false;
      cursor := Cursor(stateInstance, stateRun, lastSeq);
      log := log + [Disconnected];
    }

    /** The game publishes an event, connected or not. */
    method Publish()
      requires Valid()
      modifies server`newest, server`ring, server`outbox
      ensures Valid() && server.newest == old(server.newest) + 1
    {
      server.Push();
    }

    /** The game starts a new run; frames already sent may still arrive. */
    method GameRestarts(newInstance: string, newRun: string)
      requires Valid() && newRun != "" && newRun !in server.runs
      modifies server
      ensures Valid() && server.run == newRun && server.newest == 0
      ensures server.outbox == old(server.outbox)
    {
      hide Promise, AllBelow, AnsweredBelow;
      UnknownRunIsAbsent(log, server.runs, newRun);
      server.Restart(newInstance, newRun);
    }

    /** At every point of a process: the stored cursor lies below a position if
        and only if no event from there on was in at any store so far. */
    lemma StoredCursor(p: nat)
      requires Valid() && everConnect && p > 0
      ensures cursor.last < p <==> NeverStored(log, cursor.run, p)
    {
      StoredBelow(log, stateRun, p);
    }

    /** On a live connection with nothing in flight, every event of the run after
        the starting point was ingested or reported. */
    lemma CaughtUp()
      requires Valid() && connected && server.linked && server.outbox == []
      ensures forall n :: BaseOf(server.run, firstRun, base) < n <= server.newest ==> Answered(log, server.run, n)
    {
      assert AnsweredBelow(log, stateRun, BaseOf(stateRun, firstRun, base), next);
    }
  }

  lemma UnknownRunIsAbsent(log: seq<Ingested>, runs: set<string>, run: string)
    requires run !in runs
    ensures KnownRuns(log, runs) ==> AllBelow(log, run, 0)
    ensures KnownRuns(log, {}) ==> AllBelow(log, run, 0)
    ensures forall more :: runs <= more && KnownRuns(log, runs) ==> KnownRuns(log, more)
  {}

  /** What may happen next; a step that is not possible is skipped. */
  datatype Step = Publishes | Restarts(instanceId: string, newRun: string) | Connects | Delivers | Drops

  /** One daemon process, over any schedule of events, drops, reconnects and game
      restarts: nothing twice, nothing out of order, nothing silently missing. */
  method RunProcess(server: Server, persisted: Cursor, schedule: seq<Step>) returns (session: TargetSession)
    requires server.Valid() && !server.linked && server.outbox == []
    modifies server
    ensures fresh(session) && session.Valid() && session.server == server
    ensures Increasing(session.log)
    ensures NothingSilent(session.log, session.firstRun, session.base)
    ensures session.base > 0 ==> session.base == persisted.last && (persisted.run == "" || persisted.run == session.firstRun)
    ensures session.everConnect && persisted.last > 0 ==>
              (session.cursor.last < persisted.last <==> NeverStored(session.log, session.cursor.run, persisted.last))
  {
    hide Increasing, NothingSilent, KnownRuns, AllBelow, AnsweredBelow;
    session := new TargetSession(server, persisted);
    for i := 0 to |schedule|
      invariant fresh(session) && session.Valid() && session.server == server
      invariant session.base > 0 ==> session.base == persisted.last && (persisted.run == "" || persisted.run == session.firstRun)
      invariant !session.everConnect ==> session.cursor == persisted && session.base == 0 && !session.connected
    {
      match schedule[i] {
        case Publishes =>
          session.Publish();
        case Restarts(instanceId, run) =>
          if run != "" && run !in server.runs {
            session.GameRestarts(instanceId, run);
          }
        case Connects =>
          if !session.connected {
            var _, _ := session.Connect();
          }
        case Delivers =>
          if session.connected && server.outbox != [] {
            session.Deliver();
          }
        case Drops =>
          if session.connected {
            session.Disconnect();
          }
      }
    }
    if session.everConnect && persisted.last > 0 {
      session.StoredCursor(persisted.last);
    }
  }

  /** A process that meets its own persisted run starts counting at zero, and
      forgets the persisted position if nothing arrives before the link drops. */
  method CursorRegresses(server: Server, persisted: Cursor) returns (session: TargetSession)
    requires server.Valid() && !server.linked && server.outbox == []
    requires persisted.run == server.run
    modifies server
    ensures session.cursor == Cursor(server.instanceId, server.run, 0)
  {
    session := new TargetSession(server, persisted);
    var _, _ := session.Connect();
    session.Disconnect();
  }
}
