/** Reconciliation of unknown writes after a reconnect, against a server whose
    request ledger empties on every new run. */
module Reconcile {
  import opened Ledger

  // ---------------------------------------------------------- the server side

  datatype Status = Pending | Completed | Failed

  datatype Answer = Failure(code: string) | State(name: string)

  const CAPABILITY_NOT_SUPPORTED := "capability_not_supported"
  const NOT_FOUND := "not_found"
  const CONNECTION_LOST := "connection_lost"
  const TIMEOUT := "timeout"

  class GameServer {
    var runID: string
    var recent: map<string, Status>
    /** Operations received over the connection of the reconciling daemon pass,
        oldest first; other callers' frames are not listed. */
    var requests: seq<string>
    /** Every (run, id) whose write finished, over all runs so far. */
    ghost var finished: set<(string, string)>

    ghost predicate Valid()
      reads this
    {
      forall id :: id in recent && !recent[id].Pending? ==> (runID, id) in finished
    }

    constructor (runID: string)
      ensures Valid() && this.runID == runID && finished == {}
    {
      this.runID, recent, requests, finished := runID, map[], [], {};
    }

    /** A write frame: a completed id is answered from the ledger, any other id
        becomes pending before it runs. */
    method StartWrite(id: string, fromPass: bool) returns (replayed: bool)
      requires Valid()
      modifies `recent, `requests
      ensures Valid()
      ensures requests == old(requests) + if fromPass then ["write"] else []
      ensures replayed <==> id in old(recent) && old(recent)[id].Completed?
      ensures recent == if replayed then old(recent) else old(recent)[id := Pending]
    {
      requests := requests + if fromPass then ["write"] else [];
      replayed := id in recent && recent[id].Completed?;
      if !replayed {
        recent := recent[id := Pending];
      }
    }

    /** A finished write is recorded with its result. */
    method CompleteWrite(id: string)
      requires Valid()
      modifies `recent, `finished
      ensures Valid() && finished == old(finished) + {(runID, id)}
      ensures recent == old(recent)[id := Completed]
    {
      recent := recent[id := Completed];
      finished := finished + {(runID, id)};
    }

    /** The fake leaves a failed write pending; the daemon also understands a
        server that records the failure. */
    method FailWrite(id: string)
      requires Valid()
      modifies `recent, `finished
      ensures Valid() && finished == old(finished) + {(runID, id)}
      ensures recent == old(recent)[id := Failed]
    {
      recent := recent[id := Failed];
      finished := finished + {(runID, id)};
    }

    /** A game restart: a new run and an empty ledger. */
    method SetRunID(run: string)
      requires Valid()
      modifies `runID, `recent
      ensures Valid() && runID == run && recent == map[]
    {
      runID, recent := run, map[];
    }

    /** Anything the game may do between two queries. */
    method Progress()
      requires Valid()
      modifies `runID, `recent, `finished, `requests
      ensures Valid() && old(finished) <= finished && requests == old(requests)
    {
      var steps: int := *;
      while steps > 0
        invariant Valid() && old(finished) <= finished && requests == old(requests)
      {
        steps := steps - 1;
        var id: string, run: string := *, *;
        if * {
          var _ := StartWrite(id, false);
        } else if * {
          CompleteWrite(id);
        } else if * {
          FailWrite(id);
        } else {
          SetRunID(run);
        }
      }
    }

    /** `request_status` over a connection opened during `run`: a restart closed
        that connection, and the call may fail or time out for other reasons. */
    method RequestStatus(run: string, id: string) returns (answer: Answer)
      requires Valid()
      modifies `requests
      ensures Valid() && requests == old(requests) + ["request_status"]
      ensures answer.State? ==> run == runID && answer.name == StatusName(id)
    {
      requests := requests + ["request_status"];
      if run != runID {
        return Failure(CONNECTION_LOST);
      }
      if * {
        var code: string := *;
        return Failure(code);
      }
      answer := State(StatusName(id));
    }

    function StatusName(id: string): string
      reads this
    {
      if id !in recent then "unknown"
      else match recent[id] case Pending => "pending" case Completed => "completed" case Failed => "failed"
    }
  }

  // ---------------------------------------------------------- the daemon side

  /** What the current connection proves about itself. */
  datatype Scope = Scope(target: string, runID: string, instanceID: string, fingerprint: string)

  /** The ledger of the connected server could hold this entry: nothing that
      both sides know differs. */
  predicate InScope(entry: Write, scope: Scope) {
    && (entry.runID == "" || scope.runID == "" || entry.runID == scope.runID)
    && (entry.instanceID == "" || scope.instanceID == "" || entry.instanceID == scope.instanceID)
    && (entry.credentialHash == "" || scope.fingerprint == "" || entry.credentialHash == scope.fingerprint)
  }

  /** Both are known, and they are not the same. */
  predicate Contradict(a: string, b: string) {
    a != "" && b != "" && a != b
  }

  datatype Asked = NotAsked | Got(answer: Answer)

  datatype Effect = Remove | Unresolve | Leave

  /** The decision table of one entry. */
  function Decide(asked: Asked): Effect {
    match asked
    case NotAsked => Unresolve
    case Got(Failure(code)) => if code == CAPABILITY_NOT_SUPPORTED || code == NOT_FOUND then Unresolve else Leave
    case Got(State(name)) =>
      if name == "completed" || name == "failed" then Remove
      else if name == "unknown" then Unresolve
      else Leave
  }

  /** What a status query can mean for its entry, said of the answers alone. */
  predicate IsFinal(answer: Answer) {
    answer == State("completed") || answer == State("failed")
  }

  predicate IsUnanswerable(answer: Answer) {
    answer == State("unknown") || answer == Failure("capability_not_supported") || answer == Failure("not_found")
  }

  /** The table after one answer was acted on: the entry is gone, or marked with
      everything else about it as it was, or nothing changed. */
  ghost predicate Acted(before: Table, key: string, answer: Answer, after: Table) {
    if IsFinal(answer) then after == before - {key}
    else if IsUnanswerable(answer) then MarkedOnly(before, key, after)
    else after == before
  }

  ghost predicate MarkedOnly(before: Table, key: string, after: Table) {
    && after.Keys == before.Keys
    && (forall k :: k in before && k != key ==> after[k] == before[k])
    && (key in before ==> after[key].state == "unresolved" && after[key] == before[key].(state := "unresolved", message := after[key].message))
  }

  /** A pending write, a failure of any other kind and an answer that nobody
      knows leave the entry; the rest as they say. */
  lemma DecideExactly(answer: Answer, before: Table, key: string, after: Table)
    requires Applied(before, key, Decide(Got(answer)), after)
    ensures Acted(before, key, answer, after)
  {}

  /** The table after an effect whose save succeeded. */
  ghost predicate Applied(before: Table, key: string, effect: Effect, after: Table) {
    match effect
    case Remove => after == before - {key}
    case Unresolve =>
      if key !in before then after == before
      else exists message :: after == before[key := before[key].(state := "unresolved", message := message)]
    case Leave => after == before
  }

  lemma RestatedIsApplied(before: Table, key: string, message: string)
    ensures Applied(before, key, Unresolve,
                    if key in before then before[key := before[key].(state := "unresolved", message := message)] else before)
  {}

  /** Acts on an answer; a failed save changes nothing. */
  method ActOn(ledger: UnknownWrites, entry: Write, answer: Answer) returns (saved: bool)
    requires ledger.Valid()
    modifies ledger`items, ledger`disk
    ensures ledger.Valid()
    ensures if saved then Applied(old(ledger.items), Key(entry.target, entry.requestID), Decide(Got(answer)), ledger.items)
            else ledger.items == old(ledger.items) && ledger.disk == old(ledger.disk)
    ensures saved ==> Acted(old(ledger.items), Key(entry.target, entry.requestID), answer, ledger.items)
    ensures saved <== ledger.device.writable
  {
    hide WellKeyed, Content, Key, Acted;
    saved := true;
    ghost var before, k := ledger.items, Key(entry.target, entry.requestID);
    RestatedIsApplied(before, k, "this transport cannot query the ledger");
    RestatedIsApplied(before, k, "the server has no record of this request");
    match answer {
      case Failure(code) =>
        if code == CAPABILITY_NOT_SUPPORTED || code == NOT_FOUND {
          saved := ledger.MarkUnresolved(entry.target, entry.requestID, "this transport cannot query the ledger");
        }
      case State(name) =>
        if name == "completed" || name == "failed" {
          saved := ledger.Resolve(entry.target, entry.requestID);
        } else if name == "unknown" {
          saved := ledger.MarkUnresolved(entry.target, entry.requestID, "the server has no record of this request");
        }
    }
    if saved {
      DecideExactly(answer, before, k, ledger.items);
    }
  }

  /** An answer that removes an entry is a final status of this very run. */
  lemma FinalMeansFinished(server: GameServer, scope: Scope, id: string, answer: Answer)
    requires server.Valid() && Decide(Got(answer)).Remove?
    requires answer.State? ==> scope.runID == server.runID && answer.name == server.StatusName(id)
    ensures (scope.runID, id) in server.finished
  {}

  /** One entry: asks only within scope, removes only on a final report by the
      run the connection belongs to, and a failed save changes nothing. */
  method ReconcileEntry(ledger: UnknownWrites, server: GameServer, scope: Scope, entry: Write)
    returns (asked: Asked, saved: bool)
    requires ledger.Valid() && server.Valid()
    modifies ledger`items, ledger`disk, server
    ensures saved <== ledger.device.writable
    ensures ledger.Valid() && server.Valid() && old(server.finished) <= server.finished
    ensures asked.NotAsked? <==> !InScope(entry, scope)
    ensures asked.NotAsked? <==>
              || Contradict(entry.runID, scope.runID) || Contradict(entry.instanceID, scope.instanceID)
              || Contradict(entry.credentialHash, scope.fingerprint)
    ensures server.requests == old(server.requests) + if asked.Got? then ["request_status"] else []
    ensures if saved then Applied(old(ledger.items), Key(entry.target, entry.requestID), Decide(asked), ledger.items)
            else ledger.items == old(ledger.items) && ledger.disk == old(ledger.disk)
    ensures Decide(asked).Remove? ==>
              InScope(entry, scope) && scope.runID == server.runID && (scope.runID, entry.requestID) in server.finished
    ensures var k := Key(entry.target, entry.requestID);
            saved ==>
              if asked.Got? then Acted(old(ledger.items), k, asked.answer, ledger.items)
              else MarkedOnly(old(ledger.items), k, ledger.items)
    ensures asked.Got? && asked.answer.State? ==> scope.runID == server.runID && asked.answer.name == server.StatusName(entry.requestID)
  {
    hide WellKeyed, Content, Key;
    asked := NotAsked;
    if !InScope(entry, scope) {
      saved := ledger.MarkUnresolved(entry.target, entry.requestID, "the request belongs to another scope");
      return;
    }
    server.Progress();
    var answer := server.RequestStatus(scope.runID, entry.requestID);
    asked := Got(answer);
    if Decide(asked).Remove? {
      FinalMeansFinished(server, scope, entry.requestID, answer);
    }
    hide Decide, Applied, Acted;
    saved := ActOn(ledger, entry, answer);
  }

  /** The fate of an entry over a whole pass. */
  ghost predicate Settled(entry: Write, items: Table, scope: Scope, finished: set<(string, string)>) {
    var k := Key(entry.target, entry.requestID);
    if k !in items then
      entry.target == scope.target && InScope(entry, scope) && (scope.runID, entry.requestID) in finished
    else
      items[k] == entry ||
      (entry.target == scope.target && items[k] == entry.(state := "unresolved", message := items[k].message))
  }

  /** The operations sent in between are status queries. */
  ghost predicate OnlyQueries(before: seq<string>, after: seq<string>) {
    before <= after && forall i :: |before| <= i < |after| ==> after[i] == "request_status"
  }

  lemma SettledStep(original: Table, before: Table, after: Table, entry: Write, asked: Asked, scope: Scope,
                    finished: set<(string, string)>, finished': set<(string, string)>)
    requires WellKeyed(original) && finished <= finished'
    requires entry.target == scope.target
    requires var k := Key(entry.target, entry.requestID); k in original && original[k] == entry
    requires before.Keys <= original.Keys
    requires forall k :: k in original ==> Settled(original[k], before, scope, finished)
    requires Applied(before, Key(entry.target, entry.requestID), Decide(asked), after) || after == before
    requires Decide(asked).Remove? ==> InScope(entry, scope) && (scope.runID, entry.requestID) in finished'
    ensures after.Keys <= original.Keys
    ensures forall k :: k in original ==> Settled(original[k], after, scope, finished')
  {
    hide InScope;
    forall k | k in original ensures Settled(original[k], after, scope, finished') {
      assert Settled(original[k], before, scope, finished);
      assert k == Key(original[k].target, original[k].requestID);
    }
  }

  /** What one entry's own query made of it. */
  ghost predicate Fate(before: Write, items: Table, asked: Asked, saved: bool) {
    var k := Key(before.target, before.requestID);
    if saved && asked.Got? && IsFinal(asked.answer) then k !in items
    else
      && k in items
      && if saved && (asked.NotAsked? || IsUnanswerable(asked.answer))
         then items[k] == before.(state := "unresolved", message := items[k].message)
         else items[k] == before
  }

  lemma FateOf(entry: Write, before: Table, after: Table, asked: Asked, saved: bool)
    requires var k := Key(entry.target, entry.requestID); k in before && before[k] == entry
    requires var k := Key(entry.target, entry.requestID);
             if !saved then after == before
             else if asked.Got? then Acted(before, k, asked.answer, after)
             else MarkedOnly(before, k, after)
    ensures Fate(entry, after, asked, saved)
    ensures forall k :: k in before && k != Key(entry.target, entry.requestID) ==> k in after && after[k] == before[k]
    ensures after.Keys <= before.Keys
  {
    hide Key;
  }

  type Heard = map<string, (Asked, bool)>

  /** After a pass, or a part of one: each entry it reached has the fate that its
      own answer, or its scope, gave it; the others are untouched and nothing is
      added. `heard` holds what was asked, and whether the effect was saved. */
  ghost predicate Passed(original: Table, items: Table, heard: Heard, scope: Scope, writable: bool) {
    && items.Keys <= original.Keys
    && (forall k :: k in heard ==> k in original && Reached(original[k], items, heard[k], scope, writable))
    && (forall k :: k in original && k !in heard ==> k in items && items[k] == original[k])
  }

  ghost predicate Reached(entry: Write, items: Table, heard: (Asked, bool), scope: Scope, writable: bool) {
    && entry.target == scope.target && (heard.0.NotAsked? <==> !InScope(entry, scope)) && (writable ==> heard.1)
    && Fate(entry, items, heard.0, heard.1)
  }

  lemma PassStep(original: Table, before: Table, after: Table, heard: Heard, entry: Write, asked: Asked, saved: bool,
                 scope: Scope, writable: bool)
    requires WellKeyed(original) && Passed(original, before, heard, scope, writable)
    requires var k := Key(entry.target, entry.requestID);
             && k !in heard && k in original && original[k] == entry
             && if !saved then after == before
                else if asked.Got? then Acted(before, k, asked.answer, after)
                else MarkedOnly(before, k, after)
    requires entry.target == scope.target && (asked.NotAsked? <==> !InScope(entry, scope)) && (writable ==> saved)
    ensures Passed(original, after, heard[Key(entry.target, entry.requestID) := (asked, saved)], scope, writable)
  {
    hide InScope, Key;
    var k := Key(entry.target, entry.requestID);
    FateOf(entry, before, after, asked, saved);
    assert Reached(entry, after, (asked, saved), scope, writable);
    hide Fate, Acted, MarkedOnly, Reached, WellKeyed;
    PassGrows(original, before, after, heard, k, (asked, saved), scope, writable);
  }

  lemma PassGrows(original: Table, before: Table, after: Table, heard: Heard, k: string, turn: (Asked, bool),
                  scope: Scope, writable: bool)
    requires WellKeyed(original) && Passed(original, before, heard, scope, writable)
    requires k !in heard && k in original && Reached(original[k], after, turn, scope, writable)
    requires after.Keys <= before.Keys && forall x :: x in before && x != k ==> x in after && after[x] == before[x]
    ensures Passed(original, after, heard[k := turn], scope, writable)
  {
    hide InScope, Key, WellKeyed, Reached;
    forall x | x in heard ensures Reached(original[x], after, heard[x], scope, writable) {
      ReachedStays(original, before, after, heard[x], scope, writable, x, k);
    }
  }

  lemma ReachedStays(original: Table, before: Table, after: Table, heard: (Asked, bool), scope: Scope, writable: bool,
                     x: string, other: string)
    requires WellKeyed(original) && x in original && Reached(original[x], before, heard, scope, writable)
    requires x != other && after.Keys <= before.Keys
    requires forall k :: k in before && k != other ==> k in after && after[k] == before[k]
    ensures Reached(original[x], after, heard, scope, writable)
  {
    hide InScope, Key, Fate;
    FateStays(original[x], before, after, heard.0, heard.1, other);
  }

  /** A whole pass over one target's entries, oldest first. It stops early when
      the adapter is gone (`alive` says for which entries there is one). Entries leave only on a final report of the connected
      run, each entry gets what its own answer says, and only status queries are
      sent. */
  method ReconcileUnknown(ledger: UnknownWrites, server: GameServer, scope: Scope, alive: nat -> bool)
    returns (ghost heard: Heard)
    requires ledger.Valid() && server.Valid()
    modifies ledger`items, ledger`disk, server
    ensures ledger.Valid() && server.Valid()
    ensures forall k :: k in old(ledger.items) ==>
              Settled(old(ledger.items)[k], ledger.items, scope, server.finished)
    ensures Passed(old(ledger.items), ledger.items, heard, scope, ledger.device.writable)
    ensures (forall i :: alive(i)) ==> forall k :: k in old(ledger.items) && old(ledger.items)[k].target == scope.target ==> k in heard
    ensures OnlyQueries(old(server.requests), server.requests)
  {
    hide InScope, Settled, Reached, Passed, Key, OnlyQueries;
    heard := map[];
    var entries := ledger.ForTarget(scope.target);
    ghost var original := ledger.items;
    AllSettled(ledger.items, scope, server.finished);
    NothingPassed(ledger.items, scope, ledger.device.writable);
    NoQueries(server.requests);
    assert WellKeyed(original) && Lists(entries, original, scope.target);
    hide WellKeyed, Content, Lists;
    for i := 0 to |entries|
      invariant ledger.Valid() && server.Valid()
      invariant forall k :: k in original ==> Settled(original[k], ledger.items, scope, server.finished)
      invariant Passed(original, ledger.items, heard, scope, ledger.device.writable)
      invariant HeardUpTo(heard, entries, i)
      invariant OnlyQueries(old(server.requests), server.requests)
    {
      if !alive(i) {
        return;
      }
      var entry := entries[i];
      ListedAt(entries, original, scope.target, i, heard);
      ghost var requests, before := server.requests, heard;
      heard := ReachEntry(ledger, server, scope, entry, original, heard);
      MoreQueries(old(server.requests), requests, server.requests);
      HeardMore(before, heard, entries, i);
    }
    AllHeard(heard, entries, original, scope.target);
  }

  /** One target's entries of a table, each once. */
  ghost predicate Lists(entries: seq<Write>, items: Table, target: string) {
    && (forall w :: w in entries <==> w.target == target && Key(target, w.requestID) in items && items[Key(target, w.requestID)] == w)
    && forall i, j :: 0 <= i < j < |entries| ==> entries[i].requestID != entries[j].requestID
  }

  ghost predicate HeardUpTo(heard: Heard, entries: seq<Write>, i: nat) {
    && i <= |entries|
    && (forall k :: k in heard ==> exists j :: 0 <= j < i && k == Key(entries[j].target, entries[j].requestID))
    && forall j :: 0 <= j < i ==> Key(entries[j].target, entries[j].requestID) in heard
  }

  lemma ListedAt(entries: seq<Write>, items: Table, target: string, i: nat, heard: Heard)
    requires Lists(entries, items, target) && i < |entries| && HeardUpTo(heard, entries, i)
    ensures entries[i].target == target
    ensures var k := Key(entries[i].target, entries[i].requestID); k !in heard && k in items && items[k] == entries[i]
  {
    hide Key;
    assert forall j :: 0 <= j < |entries| ==> entries[j] in entries;
    NotHeardYet(entries, i, heard);
  }

  lemma HeardMore(before: Heard, heard: Heard, entries: seq<Write>, i: nat)
    requires HeardUpTo(before, entries, i) && i < |entries|
    requires heard.Keys == before.Keys + {Key(entries[i].target, entries[i].requestID)}
    ensures HeardUpTo(heard, entries, i + 1)
  {
    hide Key;
    forall k | k in heard ensures exists j :: 0 <= j < i + 1 && k == Key(entries[j].target, entries[j].requestID) {
      if k in before {
        var j :| 0 <= j < i && k == Key(entries[j].target, entries[j].requestID);
      }
    }
  }

  lemma AllHeard(heard: Heard, entries: seq<Write>, items: Table, target: string)
    requires Lists(entries, items, target) && HeardUpTo(heard, entries, |entries|) && WellKeyed(items)
    ensures forall k :: k in items && items[k].target == target ==> k in heard
  {
    forall k | k in items && items[k].target == target ensures k in heard {
      assert items[k] in entries;
      var j :| 0 <= j < |entries| && entries[j] == items[k];
    }
  }

  /** One entry's turn in a pass. */
  method ReachEntry(ledger: UnknownWrites, server: GameServer, scope: Scope, entry: Write, ghost original: Table,
                    ghost heard: Heard) returns (ghost heard': Heard)
    requires ledger.Valid() && server.Valid() && WellKeyed(original) && entry.target == scope.target
    requires var k := Key(entry.target, entry.requestID); k !in heard && k in original && original[k] == entry
    requires Passed(original, ledger.items, heard, scope, ledger.device.writable)
    requires forall k :: k in original ==> Settled(original[k], ledger.items, scope, server.finished)
    modifies ledger`items, ledger`disk, server
    ensures ledger.Valid() && server.Valid()
    ensures Passed(original, ledger.items, heard', scope, ledger.device.writable)
    ensures heard'.Keys == heard.Keys + {Key(entry.target, entry.requestID)}
    ensures forall k :: k in original ==> Settled(original[k], ledger.items, scope, server.finished)
    ensures OnlyQueries(old(server.requests), server.requests)
  {
    hide InScope, Settled, Reached, Decide, Acted, MarkedOnly, Applied, Key;
    ghost var items, finished := ledger.items, server.finished;
    var asked, saved := ReconcileEntry(ledger, server, scope, entry);
    SettledStep(original, items, ledger.items, entry, asked, scope, finished, server.finished);
    PassStep(original, items, ledger.items, heard, entry, asked, saved, scope, ledger.device.writable);
    heard' := heard[Key(entry.target, entry.requestID) := (asked, saved)];
  }

  lemma NothingPassed(items: Table, scope: Scope, writable: bool)
    ensures Passed(items, items, map[], scope, writable)
  {}

  lemma NoQueries(requests: seq<string>)
    ensures OnlyQueries(requests, requests)
  {}

  lemma MoreQueries(a: seq<string>, b: seq<string>, c: seq<string>)
    requires OnlyQueries(a, b) && OnlyQueries(b, c)
    ensures OnlyQueries(a, c)
  {}

  lemma NotHeardYet(entries: seq<Write>, i: nat, heard: Heard)
    requires i < |entries|
    requires forall a, b :: 0 <= a < b < |entries| ==> entries[a].requestID != entries[b].requestID
    requires forall a :: 0 <= a < |entries| ==> entries[a].target == entries[i].target
    requires forall k :: k in heard ==> exists j :: 0 <= j < i && k == Key(entries[j].target, entries[j].requestID)
    ensures Key(entries[i].target, entries[i].requestID) !in heard
  {
    hide Key;
    var k := Key(entries[i].target, entries[i].requestID);
    if k in heard {
      var j :| 0 <= j < i && k == Key(entries[j].target, entries[j].requestID);
      SameKey(entries[j], entries[i]);
    }
  }

  lemma SameKey(a: Write, b: Write)
    requires a.target == b.target && Key(a.target, a.requestID) == Key(b.target, b.requestID)
    ensures a.requestID == b.requestID
  {
    assert a.requestID == Key(a.target, a.requestID)[|a.target| + 1..];
    assert b.requestID == Key(b.target, b.requestID)[|b.target| + 1..];
  }

  lemma AllSettled(items: Table, scope: Scope, finished: set<(string, string)>)
    requires WellKeyed(items)
    ensures forall k :: k in items ==> Settled(items[k], items, scope, finished)
  {}

  /** Another entry's turn leaves a fate as it is. */
  lemma FateStays(entry: Write, before: Table, after: Table, asked: Asked, saved: bool, other: string)
    requires Fate(entry, before, asked, saved) && after.Keys <= before.Keys
    requires Key(entry.target, entry.requestID) != other
    requires forall k :: k in before && k != other ==> k in after && after[k] == before[k]
    ensures Fate(entry, after, asked, saved)
  {
    hide Key;
  }
}
