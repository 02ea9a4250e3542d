/** The write-ahead machine's ledger steps are what the ledger object and the
    reconciliation pass really do. */
module LedgerSteps {
  import opened Ledger
  import opened Reconcile
  import WriteAhead

  /** The run ids that the targets' games give themselves, run after run. */
  type Names = (string, nat) -> string

  /** Every run has an id of its own. */
  ghost predicate Unmistakable(names: Names) {
    forall target, a, b :: names(target, a) != "" && (names(target, a) == names(target, b) ==> a == b)
  }

  /** The machine's table is the ledger's, cut down to states and runs. */
  ghost predicate Shows(items: Table, t: WriteAhead.Table, names: Names) {
    items.Keys == t.Keys &&
    forall k :: k in items ==> items[k].state == t[k].state && items[k].runID == names(TargetOf(k), t[k].run)
  }

  lemma SameSize(items: Table, t: WriteAhead.Table, names: Names)
    requires Shows(items, t, names)
    ensures |items| == |t|
  {
    assert |items| == |items.Keys| && |t| == |t.Keys|;
  }

  /** Both tables gain an entry, change an entry's state, or lose one. */
  lemma ShowsAdded(items: Table, t: WriteAhead.Table, names: Names, k: string, write: Write, entry: WriteAhead.Entry)
    requires Shows(items, t, names) && write.state == entry.state && write.runID == names(TargetOf(k), entry.run)
    ensures Shows(items[k := write], t[k := entry], names)
  {
    hide TargetOf;
  }

  lemma ShowsApplied(before: Table, t: WriteAhead.Table, names: Names, k: string, effect: Effect, after: Table)
    requires Shows(before, t, names) && Applied(before, k, effect, after)
    ensures match effect
            case Remove => Shows(after, t - {k}, names)
            case Unresolve => Shows(after, WriteAhead.Restated(t, k, "unresolved"), names)
            case Leave => Shows(after, t, names)
  {
    hide TargetOf;
    if effect.Unresolve? && k in before {
      var message :| after == before[k := before[k].(state := "unresolved", message := message)];
      ShowsAdded(before, t, names, k, before[k].(state := "unresolved", message := message), t[k].(state := "unresolved"));
    }
  }

  /** `Admit` is the claim step, and it claims exactly when the step takes effect. */
  method Claim(ledger: UnknownWrites, target: string, operation: string, requestID: string, at: int, instanceID: string,
               runID: string, credentialHash: string, ghost names: Names, ghost s: WriteAhead.State, ghost c: nat, ghost run: nat)
    returns (r: Admission)
    requires ledger.Valid() && requestID != "" && Shows(ledger.items, s.items, names)
    requires '\0' !in target && runID == names(target, run)
    modifies ledger`items, ledger`disk
    ensures ledger.Valid()
    ensures Shows(ledger.items, WriteAhead.DoClaim(s, c, Key(target, requestID), run, ledger.device.writable).items, names)
    ensures r.Claimed? <==> WriteAhead.Succeeds(s, Key(target, requestID), ledger.device.writable)
    ensures r.Existing? <==> Key(target, requestID) in s.items
  {
    TargetOfKey(target, requestID);
    hide WellKeyed, Content, Key, TargetOf, Shows, WriteAhead.DoClaim, WriteAhead.Succeeds;
    ghost var before := ledger.items;
    r := ledger.Admit(target, operation, requestID, at, instanceID, runID, credentialHash);
    ClaimShows(before, ledger.items, names, s, c, Key(target, requestID), run, ledger.device.writable,
               Write(target, operation, requestID, at, "unknown", "", instanceID, runID, credentialHash));
  }

  lemma ClaimShows(before: Table, after: Table, names: Names, s: WriteAhead.State, c: nat, k: string, run: nat, saved: bool,
                   write: Write)
    requires Shows(before, s.items, names) && write.state == "unknown" && write.runID == names(TargetOf(k), run)
    requires if saved && k !in before && |before| < CAPACITY then after == before[k := write] else after == before
    ensures Shows(after, WriteAhead.DoClaim(s, c, k, run, saved).items, names)
    ensures WriteAhead.Succeeds(s, k, saved) <==> saved && k !in before && |before| < CAPACITY
    ensures k in before <==> k in s.items
  {
    SameSize(before, s.items, names);
    assert k in before <==> k in s.items;
    if saved && k !in before && |before| < CAPACITY {
      ShowsAdded(before, s.items, names, k, write, WriteAhead.Entry.Entry(c, "unknown", run));
    }
    hide Shows, TargetOf;
  }

  lemma SettleShows(before: Table, after: Table, names: Names, s: WriteAhead.State, c: nat, k: string, message: string, saved: bool)
    requires Shows(before, s.items, names) && c in s.calls
    requires s.calls[c] == WriteAhead.Call.Answered(k) || s.calls[c] == WriteAhead.Call.Unknown(k)
    requires if !saved then after == before
             else if s.calls[c].Answered? then after == before - {k}
             else after == if k in before then before[k := before[k].(state := "unknown", message := message)] else before
    ensures Shows(after, WriteAhead.DoSettle(s, c, saved).items, names)
  {
    hide TargetOf;
    if saved && s.calls[c].Unknown? && k in before {
      ShowsAdded(before, s.items, names, k, before[k].(state := "unknown", message := message), s.items[k].(state := "unknown"));
    }
  }

  /** Resolving an answered call, or noting an unknown outcome, is the settle step. */
  method Settle(ledger: UnknownWrites, target: string, requestID: string, message: string, answered: bool,
                ghost names: Names, ghost s: WriteAhead.State, ghost c: nat)
    returns (saved: bool)
    requires ledger.Valid() && Shows(ledger.items, s.items, names) && c in s.calls
    requires var k := Key(target, requestID);
             s.calls[c] == if answered then WriteAhead.Call.Answered(k) else WriteAhead.Call.Unknown(k)
    modifies ledger`items, ledger`disk
    ensures ledger.Valid() && (saved <== ledger.device.writable)
    ensures Shows(ledger.items, WriteAhead.DoSettle(s, c, saved).items, names)
  {
    hide WellKeyed, Content, Key, Shows, WriteAhead.DoSettle;
    ghost var before := ledger.items;
    if answered {
      saved := ledger.Resolve(target, requestID);
    } else {
      saved := ledger.NoteUnknown(target, requestID, message);
    }
    SettleShows(before, ledger.items, names, s, c, Key(target, requestID), message, saved);
  }

  function VerdictOf(effect: Effect): WriteAhead.Verdict {
    match effect
    case Remove => WriteAhead.Final
    case Unresolve => WriteAhead.NoRecord
    case Leave => WriteAhead.NotNow
  }

  /** The machine knows the game: it is in the run the machine counts, and has
      finished no id in it that it did not receive. */
  ghost predicate Tracks(server: GameServer, target: string, names: Names, s: WriteAhead.State)
    reads server
  {
    && (forall id :: server.runID == names(target, WriteAhead.RunOf(s, Key(target, id))))
    && (forall id :: (server.runID, id) in server.finished ==> Key(target, id) in s.received)
  }

  /** A final answer is about a copy of the run that gave it. */
  lemma FinalIsEnabled(server: GameServer, scope: Scope, entry: Write, names: Names, s: WriteAhead.State, p: nat, saved: bool)
    requires Unmistakable(names) && '\0' !in entry.target && Tracks(server, entry.target, names, s) && s.up
    requires var k := Key(entry.target, entry.requestID);
             p in s.passes && k in s.passes[p] && entry.runID == names(entry.target, s.passes[p][k].run)
    requires InScope(entry, scope) && scope.runID == server.runID && (scope.runID, entry.requestID) in server.finished
    ensures WriteAhead.Enabled(s, WriteAhead.Step.Report(p, Key(entry.target, entry.requestID), WriteAhead.Final, saved))
  {
    var k := Key(entry.target, entry.requestID);
    assert server.runID == names(entry.target, WriteAhead.RunOf(s, k));
    hide Key;
  }

  /** One entry of a pass is the report step, and that step is enabled: when the
      answer is final, it comes from the run the copy belongs to, and is about
      an id that the game received. */
  method Report(ledger: UnknownWrites, server: GameServer, scope: Scope, entry: Write, ghost names: Names,
                ghost s: WriteAhead.State, ghost p: nat)
    returns (asked: Asked, saved: bool)
    requires ledger.Valid() && server.Valid() && Shows(ledger.items, s.items, names) && s.up
    requires Unmistakable(names) && '\0' !in entry.target
    requires var k := Key(entry.target, entry.requestID);
             p in s.passes && k in s.passes[p] && entry.runID == names(entry.target, s.passes[p][k].run)
    modifies ledger`items, ledger`disk, server
    ensures ledger.Valid() && server.Valid() && (saved <== ledger.device.writable)
    ensures var k := Key(entry.target, entry.requestID);
            Shows(ledger.items, WriteAhead.DoReport(s, k, VerdictOf(Decide(asked)), saved).items, names)
    ensures var k := Key(entry.target, entry.requestID);
            Tracks(server, entry.target, names, s) ==>
              WriteAhead.Enabled(s, WriteAhead.Step.Report(p, k, VerdictOf(Decide(asked)), saved))
    ensures VerdictOf(Decide(asked)).Final? ==> InScope(entry, scope) && (scope.runID, entry.requestID) in server.finished
  {
    hide InScope, WellKeyed, Content, Key, Shows, Applied, Tracks, Unmistakable, ledger.Valid, server.Valid, WriteAhead.RunOf;
    ghost var before := ledger.items;
    asked, saved := ReconcileEntry(ledger, server, scope, entry);
    if saved {
      ShowsApplied(before, s.items, names, Key(entry.target, entry.requestID), Decide(asked), ledger.items);
    }
    hide Decide;
    if Decide(asked).Remove? && Tracks(server, entry.target, names, s) {
      FinalIsEnabled(server, scope, entry, names, s, p, saved);
    }
  }
}
