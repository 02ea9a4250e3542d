/** Write-ahead safety over crashing runs: calls, reconciliation passes, saves
    that fail, crashes and reloads, and game restarts, in any interleaving.
    Ledger operations are atomic here (they hold the ledger's lock, and leave
    memory and disk equal); a crash inside one amounts to its saved or its
    unsaved outcome followed by the crash. */
module WriteAhead {
  import Ledger

  /** A ledger entry and the run of its target's game that it belongs to.
      `owner` is the call that claimed it; no step reads it. */
  datatype Entry = Entry(owner: nat, state: string, run: nat)

  type Table = map<string, Entry>

  /** A call of the daemon, by what happened to it so far. */
  datatype Call =
    | Refused
    | Claimed(key: string)             // on disk, not yet handed to the transport
    | Handed(key: string)              // given to the adapter, no outcome yet
    | Answered(key: string)            // success, or a definitive failure
    | Unknown(key: string)             // failed with an unknown result
    | Closed

  /** What a successful claim was made for. */
  datatype Stamp = Stamp(key: string, run: nat)

  /** The last three fields are history variables; no step reads them. */
  datatype State = State(
    items: Table,
    disk: Table,
    up: bool,
    calls: map<nat, Call>,
    passes: map<nat, Table>,    // copies held by the reconciliation passes under way
    runs: map<string, nat>,     // the current run of each target's game, 0 where none restarted
    received: map<string, nat>, // ids that these runs received, and the call each came from
    claims: map<nat, Stamp>,    // every successful claim
    handed: set<nat>,           // calls given to the transport, over all process lives
    answered: set<nat>)         // calls whose definitive outcome was received

  const INITIAL: State := State(map[], map[], true, map[], map[], map[], map[], map[], {}, {})

  function RunOf(s: State, key: string): nat {
    var target := Ledger.TargetOf(key);
    if target in s.runs then s.runs[target] else 0
  }

  /** What a status query may say of an id. */
  datatype Verdict = Final | NoRecord | NotNow

  /** A claim is stamped with the run that was read before it. Of a call that is
      handed over, the game may receive nothing. */
  datatype Step =
    | Claim(call: nat, key: string, run: nat, saved: bool)
    | HandOver(call: nat, arrives: bool)
    | Outcome(call: nat, definitive: bool)
    | Settle(call: nat, saved: bool)
    | Fetch(pass: nat, keys: set<string>)
    | Report(pass: nat, key: string, verdict: Verdict, saved: bool)
    | GameRestart(target: string)
    | Crash
    | Restart

  /** A connection of an earlier run is dead: nothing arrives over it. A final
      report is about a copy of the current run and an id it received. */
  predicate Enabled(s: State, step: Step) {
    match step
    case Claim(c, key, run, _) => s.up && c !in s.calls && c !in s.claims && run <= RunOf(s, key)
    case HandOver(c, arrives) =>
      && s.up && c in s.calls && s.calls[c].Claimed? && c in s.claims
      && (arrives ==> s.claims[c].run == RunOf(s, s.calls[c].key))
    case Outcome(c, _) => s.up && c in s.calls && s.calls[c].Handed?
    case Settle(c, _) => s.up && c in s.calls && (s.calls[c].Answered? || s.calls[c].Unknown?)
    case Fetch(_, _) => s.up
    case Report(p, k, verdict, _) =>
      && s.up && p in s.passes && k in s.passes[p]
      && (verdict.Final? ==> s.passes[p][k].run == RunOf(s, k) && k in s.received)
    case GameRestart(_) => true
    case Crash => s.up
    case Restart => !s.up
  }

  /** Both sides of a successful save. */
  function Store(s: State, items: Table): State {
    s.(items := items, disk := items)
  }

  function Restated(items: Table, key: string, state: string): Table {
    if key in items then items[key := items[key].(state := state)] else items
  }

  function Copies(items: Table, keys: set<string>): Table {
    map k | k in items && k in keys :: items[k]
  }

  function DoClaim(s: State, c: nat, key: string, run: nat, saved: bool): State {
    if key in s.items || |s.items| >= Ledger.CAPACITY || !saved then s.(calls := s.calls[c := Refused])
    else Store(s, s.items[key := Entry(c, "unknown", run)]).(calls := s.calls[c := Claimed(key)],
                                                            claims := s.claims[c := Stamp(key, run)])
  }

  function DoHandOver(s: State, c: nat, arrives: bool): (s': State)
    requires c in s.calls && s.calls[c].Claimed?
    ensures s'.claims == s.claims
  {
    var key := s.calls[c].key;
    s.(calls := s.calls[c := Handed(key)], handed := s.handed + {c},
       received := if arrives && key !in s.received then s.received[key := c] else s.received)
  }

  /** After an outcome: a definitive one resolves, an unknown one only notes. */
  function DoSettle(s: State, c: nat, saved: bool): (after: State)
    requires c in s.calls && (s.calls[c].Answered? || s.calls[c].Unknown?)
    ensures after.claims == s.claims
  {
    var s' := s.(calls := s.calls[c := Closed]);
    if !saved then s'
    else if s.calls[c].Answered? then Store(s', s.items - {s.calls[c].key})
    else Store(s', Restated(s.items, s.calls[c].key, "unknown"))
  }

  /** One status report to a pass, acting on the key of its possibly stale copy.
      A final one tells how the call ended that brought the id to the game. */
  function DoReport(s: State, key: string, verdict: Verdict, saved: bool): (s': State)
    ensures s'.claims == s.claims
  {
    var heard := if verdict.Final? && key in s.received then s.(answered := s.answered + {s.received[key]}) else s;
    if !saved then heard
    else match verdict
      case Final => Store(heard, s.items - {key})
      case NoRecord => Store(heard, Restated(s.items, key, "unresolved"))
      case NotNow => heard
  }

  /** A new run of one target's game knows none of its ids. */
  function DoGameRestart(s: State, target: string): (s': State)
    ensures s'.claims == s.claims
  {
    s.(runs := s.runs[target := (if target in s.runs then s.runs[target] else 0) + 1],
       received := map k | k in s.received && Ledger.TargetOf(k) != target :: s.received[k])
  }

  function Apply(s: State, step: Step): State
    requires Enabled(s, step)
  {
    match step
    case Claim(c, key, run, saved) => DoClaim(s, c, key, run, saved)
    case HandOver(c, arrives) => DoHandOver(s, c, arrives)
    case Outcome(c, definitive) =>
      var k := s.calls[c].key;
      if definitive then s.(calls := s.calls[c := Answered(k)], answered := s.answered + {c})
      else s.(calls := s.calls[c := Unknown(k)])
    case Settle(c, saved) => DoSettle(s, c, saved)
    case Fetch(p, keys) => s.(passes := s.passes[p := Copies(s.items, keys)])
    case Report(_, key, verdict, saved) => DoReport(s, key, verdict, saved)
    case GameRestart(target) => DoGameRestart(s, target)
    case Crash => s.(up := false, items := map[], calls := map[], passes := map[])
    case Restart => s.(up := true, items := s.disk)
  }

  function Next(s: State, step: Step): State {
    if Enabled(s, step) then Apply(s, step) else s
  }

  function Run(s: State, steps: seq<Step>): State
    decreases |steps|
  {
    if steps == [] then s else Run(Next(s, steps[0]), steps[1..])
  }

  /** Whether a claim would take effect. */
  predicate Succeeds(s: State, key: string, saved: bool) {
    key !in s.items && |s.items| < Ledger.CAPACITY && saved
  }

  /** An earlier call of this id that may yet resolve it. */
  predicate Open(call: Call, key: string) {
    (call.Handed? || call.Answered?) && call.key == key
  }

  /** Some pass still holds a copy of this id from the game's current run. */
  predicate Copied(s: State, key: string) {
    exists p :: p in s.passes && key in s.passes[p] && s.passes[p][key].run == RunOf(s, key)
  }

  /** A request id may be claimed once more when no earlier call of it is still
      open, and either the game's current run has not received it, or nobody
      will ask that run about it: the claim is for an earlier run, and no copy
      is left. */
  predicate Reclaimable(s: State, key: string, run: nat) {
    && (forall c :: c in s.calls ==> !Open(s.calls[c], key))
    && (key in s.received ==> run != RunOf(s, key) && !Copied(s, key))
  }

  /** The step claims, with effect, an id that is not reclaimable. */
  predicate Careless(s: State, step: Step) {
    step.Claim? && Enabled(s, step) && Succeeds(s, step.key, step.saved) && !Reclaimable(s, step.key, step.run)
  }

  /** Every claim that takes effect in the run is of a reclaimable id. A retry
      whose entry is still recorded is refused and needs nothing. */
  predicate SafeIds(s: State, steps: seq<Step>)
    decreases |steps|
  {
    steps == [] || (!Careless(s, steps[0]) && SafeIds(Next(s, steps[0]), steps[1..]))
  }

  /** The promise: every call handed to the transport whose definitive outcome
      was not received is on disk, under its own id. */
  ghost predicate Recorded(s: State) {
    forall c :: c in s.handed && c !in s.answered ==> Held(s, c)
  }

  ghost predicate Held(s: State, c: nat) {
    c in s.claims && s.claims[c].key in s.disk && s.disk[s.claims[c].key].owner == c
  }

  // ------------------------------------------------------------ the invariant

  ghost predicate Stamped(s: State, k: string, entry: Entry) {
    entry.owner in s.claims && s.claims[entry.owner] == Stamp(k, entry.run)
  }

  /** Entries name a claim of their id. */
  ghost predicate Owned(s: State) {
    && (s.up ==> s.items == s.disk)
    && s.answered <= s.handed <= s.claims.Keys
    && (forall k :: k in s.disk ==> Stamped(s, k, s.disk[k]))
  }

  /** Nobody will ask the current run about this id. */
  ghost predicate Aside(s: State, k: string)
    requires k in s.disk
  {
    s.disk[k].run != RunOf(s, k) && !Copied(s, k)
  }

  /** A received id came from a call of it; if recorded, that call's own entry
      is, or one that the current run is not asked about. */
  ghost predicate ReceivedOk(s: State, k: string) {
    k in s.received ==>
      && s.received[k] in s.handed && Sent(s, s.received[k], k)
      && (k in s.disk ==> s.disk[k].owner == s.received[k] || Aside(s, k))
  }

  ghost predicate Current(s: State) {
    forall k :: ReceivedOk(s, k)
  }

  ghost predicate CallOk(s: State, c: nat) {
    c in s.calls ==>
      match s.calls[c]
      case Claimed(k) => c in s.claims && s.claims[c].key == k && c !in s.handed && Held(s, c)
      case Handed(k) => Sent(s, c, k) && (k in s.disk ==> s.disk[k].owner == c)
      case Answered(k) => Sent(s, c, k) && c in s.answered && (k in s.disk ==> s.disk[k].owner == c)
      case Unknown(k) => Sent(s, c, k)
      case _ => true
  }

  ghost predicate Sent(s: State, c: nat, k: string) {
    c in s.claims && s.claims[c].key == k && c in s.handed
  }

  ghost predicate CallsOk(s: State) {
    forall c :: CallOk(s, c)
  }

  ghost predicate Inv(s: State) {
    Owned(s) && Current(s) && CallsOk(s) && Recorded(s)
  }

  ghost predicate SentBefore(s: State, k: string) {
    exists c :: c in s.claims && s.claims[c].key == k
  }

  // --------------------------------------------------------- step by step

  lemma CallsFollow(s: State, s': State, c: nat)
    requires CallsOk(s) && CallOk(s', c)
    requires forall x :: x != c && x in s'.calls ==> x in s.calls && s'.calls[x] == s.calls[x]
    requires forall x :: x in s.claims ==> x in s'.claims && s'.claims[x] == s.claims[x]
    requires s.answered <= s'.answered && s.handed <= s'.handed <= s.handed + {c}
    requires forall x :: x != c && x in s.calls && s.calls[x].Claimed? && Held(s, x) ==> Held(s', x)
    requires forall x, k :: x != c && x in s.calls && Open(s.calls[x], k) && k in s'.disk ==>
               k in s.disk && s'.disk[k].owner == s.disk[k].owner
    ensures CallsOk(s')
  {
    forall x ensures CallOk(s', x) {
      assert CallOk(s, x);
    }
  }

  /** A crash takes the calls and the passes along, and the restarted daemon has
      the table that is on disk. */
  lemma CrashAndRestart(s: State)
    requires s.up
    ensures var t := Next(Next(s, Crash), Restart);
            t.up && t.items == s.disk == t.disk && t.calls == map[] && t.passes == map[]
  {}

  /** What the games received does not depend on calls, answers or states of
      entries, and an entry may go at any time. */
  lemma SameReceived(s: State, s': State)
    requires Current(s)
    requires s'.runs == s.runs && s'.received == s.received && s'.claims == s.claims && s.handed <= s'.handed
    requires s'.passes == s.passes
    requires forall k :: k in s'.disk ==> k in s.disk && s'.disk[k].owner == s.disk[k].owner && s'.disk[k].run == s.disk[k].run
    ensures Current(s')
  {
    forall k ensures ReceivedOk(s', k) {
      assert ReceivedOk(s, k);
      assert Copied(s', k) <==> Copied(s, k);
      hide Copied;
    }
  }

  /** The entry of the claimed id is new. */
  lemma ClaimReceived(s: State, c: nat, key: string, run: nat)
    requires Owned(s) && Current(s) && Enabled(s, Claim(c, key, run, true)) && Succeeds(s, key, true)
    requires Reclaimable(s, key, run)
    ensures Current(DoClaim(s, c, key, run, true))
  {
    var s' := DoClaim(s, c, key, run, true);
    forall k ensures ReceivedOk(s', k) {
      assert ReceivedOk(s, k);
      assert Copied(s', k) <==> Copied(s, k);
      hide Copied;
    }
  }

  lemma ClaimOwned(s: State, c: nat, key: string, run: nat)
    requires Owned(s) && Enabled(s, Claim(c, key, run, true)) && Succeeds(s, key, true)
    ensures Owned(DoClaim(s, c, key, run, true))
  {
    var s' := DoClaim(s, c, key, run, true);
    forall k | k in s'.disk ensures Stamped(s', k, s'.disk[k]) {
      if k != key {
        assert Stamped(s, k, s.disk[k]);
      }
    }
  }

  lemma RefusalKeeps(s: State, c: nat)
    requires Inv(s) && c !in s.calls
    ensures Inv(s.(calls := s.calls[c := Refused]))
  {
    var s' := s.(calls := s.calls[c := Refused]);
    SameReceived(s, s');
    hide Current;
    CallsFollow(s, s', c);
  }

  lemma ClaimKeeps(s: State, c: nat, key: string, run: nat, saved: bool)
    requires Inv(s) && Enabled(s, Claim(c, key, run, saved)) && !Careless(s, Claim(c, key, run, saved))
    ensures Inv(Apply(s, Claim(c, key, run, saved)))
  {
    var s' := DoClaim(s, c, key, run, saved);
    if Succeeds(s, key, saved) {
      ClaimReceived(s, c, key, run);
      ClaimOwned(s, c, key, run);
      hide Current, Owned;
      CallsFollow(s, s', c);
      forall x | x in s'.handed && x !in s'.answered ensures Held(s', x) {
        assert Held(s, x);
      }
    } else {
      hide Inv;
      RefusalKeeps(s, c);
    }
  }

  lemma HandOverReceived(s: State, c: nat, arrives: bool)
    requires Owned(s) && Current(s) && CallOk(s, c) && Enabled(s, HandOver(c, arrives))
    ensures Current(DoHandOver(s, c, arrives))
  {
    var s' := DoHandOver(s, c, arrives);
    forall k ensures ReceivedOk(s', k) {
      assert ReceivedOk(s, k);
      assert Copied(s', k) <==> Copied(s, k);
      hide Copied;
    }
  }

  lemma HandOverKeeps(s: State, c: nat, arrives: bool)
    requires Inv(s) && Enabled(s, HandOver(c, arrives))
    ensures Inv(Apply(s, HandOver(c, arrives)))
  {
    var s' := DoHandOver(s, c, arrives);
    assert CallOk(s, c);
    HandOverReceived(s, c, arrives);
    hide Current;
    CallsFollow(s, s', c);
  }

  lemma OutcomeKeeps(s: State, c: nat, definitive: bool)
    requires Inv(s) && Enabled(s, Outcome(c, definitive))
    ensures Inv(Apply(s, Outcome(c, definitive)))
  {
    var s' := Apply(s, Outcome(c, definitive));
    assert CallOk(s, c);
    SameReceived(s, s');
    hide Current;
    CallsFollow(s, s', c);
  }

  /** Removing an id's entry is harmless once its owner was sent and answered. */
  lemma RemovalKeeps(s: State, s': State, key: string)
    requires Inv(s) && s' == Store(s, s.items - {key}) && s.up
    requires key in s.disk ==> s.disk[key].owner in s.answered && s.disk[key].owner in s.handed
    ensures Inv(s')
  {
    SameReceived(s, s');
    hide Current;
    forall x ensures CallOk(s', x) {
      assert CallOk(s, x);
    }
    forall x | x in s'.handed && x !in s'.answered ensures Held(s', x) {
      assert Held(s, x);
    }
  }

  lemma RestatingKeeps(s: State, s': State, key: string, state: string)
    requires Inv(s) && s' == Store(s, Restated(s.items, key, state)) && s.up
    ensures Inv(s')
  {
    SameReceived(s, s');
    hide Current;
    forall k | k in s'.disk ensures Stamped(s', k, s'.disk[k]) {
      assert Stamped(s, k, s.disk[k]);
    }
    forall x ensures CallOk(s', x) {
      assert CallOk(s, x);
    }
    forall x | x in s'.handed && x !in s'.answered ensures Held(s', x) {
      assert Held(s, x);
    }
  }

  lemma CloseKeeps(s: State, c: nat)
    requires Inv(s)
    ensures Inv(s.(calls := s.calls[c := Closed]))
  {
    var s' := s.(calls := s.calls[c := Closed]);
    SameReceived(s, s');
    hide Current;
    CallsFollow(s, s', c);
  }

  lemma SettleKeeps(s: State, c: nat, saved: bool)
    requires Inv(s) && Enabled(s, Settle(c, saved))
    ensures Inv(Apply(s, Settle(c, saved)))
  {
    assert CallOk(s, c);
    CloseKeeps(s, c);
    var closed := s.(calls := s.calls[c := Closed]);
    if saved {
      hide Inv;
      if s.calls[c].Answered? {
        RemovalKeeps(closed, DoSettle(s, c, saved), s.calls[c].key);
      } else {
        RestatingKeeps(closed, DoSettle(s, c, saved), s.calls[c].key, "unknown");
      }
    }
  }

  lemma HeardKeeps(s: State, c: nat)
    requires Inv(s) && c in s.handed
    ensures Inv(s.(answered := s.answered + {c}))
  {
    var s' := s.(answered := s.answered + {c});
    SameReceived(s, s');
    hide Current;
    forall x ensures CallOk(s', x) {
      assert CallOk(s, x);
    }
  }

  /** The entry a final report removes is that of the call which brought the id. */
  lemma FinalIsOwn(s: State, p: nat, key: string)
    requires Inv(s) && Enabled(s, Report(p, key, Final, true))
    ensures s.received[key] in s.handed && (key in s.disk ==> s.disk[key].owner == s.received[key])
  {
    assert ReceivedOk(s, key) && Copied(s, key);
  }

  lemma ReportKeeps(s: State, p: nat, key: string, verdict: Verdict, saved: bool)
    requires Inv(s) && Enabled(s, Report(p, key, verdict, saved))
    ensures Inv(Apply(s, Report(p, key, verdict, saved)))
  {
    var s' := DoReport(s, key, verdict, saved);
    match verdict
    case Final =>
      var heard := s.(answered := s.answered + {s.received[key]});
      FinalIsOwn(s, p, key);
      HeardKeeps(s, s.received[key]);
      if saved {
        hide Inv;
        RemovalKeeps(heard, s', key);
      }
    case NoRecord =>
      if saved {
        RestatingKeeps(s, s', key, "unresolved");
      }
    case NotNow =>
  }

  lemma GameRestartKeeps(s: State, target: string)
    requires Inv(s)
    ensures Inv(DoGameRestart(s, target))
  {
    var s' := DoGameRestart(s, target);
    forall k ensures ReceivedOk(s', k) {
      assert ReceivedOk(s, k);
      if k in s'.received {
        assert RunOf(s', k) == RunOf(s, k);
        assert Copied(s', k) <==> Copied(s, k);
      }
      hide Copied, RunOf;
    }
    hide Current;
    forall x ensures CallOk(s', x) {
      assert CallOk(s, x);
    }
    forall x | x in s'.handed && x !in s'.answered ensures Held(s', x) {
      assert Held(s, x);
    }
  }

  /** A fetched copy is of an entry that is there. */
  lemma FetchReceived(s: State, p: nat, keys: set<string>)
    requires Owned(s) && Current(s) && Enabled(s, Fetch(p, keys))
    ensures Current(Apply(s, Fetch(p, keys)))
  {
    var s' := Apply(s, Fetch(p, keys));
    forall k ensures ReceivedOk(s', k) {
      assert ReceivedOk(s, k);
      if k in s.disk && Aside(s, k) {
        assert !Copied(s', k);
      }
    }
  }

  lemma LifeReceived(s: State, step: Step)
    requires Owned(s) && Current(s) && Enabled(s, step) && (step.Crash? || step.Restart?)
    ensures Current(Apply(s, step))
  {
    var s' := Apply(s, step);
    forall k ensures ReceivedOk(s', k) {
      assert ReceivedOk(s, k);
      assert Copied(s', k) ==> Copied(s, k);
      hide Copied;
    }
  }

  lemma LifeKeeps(s: State, step: Step)
    requires Inv(s) && Enabled(s, step) && (step.Fetch? || step.Crash? || step.Restart?)
    ensures Inv(Apply(s, step))
  {
    var s' := Apply(s, step);
    if step.Fetch? {
      FetchReceived(s, step.pass, step.keys);
    } else {
      LifeReceived(s, step);
    }
    hide Current;
    forall x ensures CallOk(s', x) {
      assert CallOk(s, x);
    }
    forall x | x in s'.handed && x !in s'.answered ensures Held(s', x) {
      assert Held(s, x);
    }
    forall k | k in s'.disk ensures Stamped(s', k, s'.disk[k]) {
      assert Stamped(s, k, s.disk[k]);
    }
  }

  lemma StepKeeps(s: State, step: Step)
    requires Inv(s) && !Careless(s, step)
    ensures Inv(Next(s, step))
  {
    hide Inv, Careless;
    if Enabled(s, step) {
      match step
      case Claim(c, key, run, saved) => ClaimKeeps(s, c, key, run, saved);
      case HandOver(c, arrives) => HandOverKeeps(s, c, arrives);
      case Outcome(c, definitive) => OutcomeKeeps(s, c, definitive);
      case Settle(c, saved) => SettleKeeps(s, c, saved);
      case Fetch(_, _) => LifeKeeps(s, step);
      case Report(p, key, verdict, saved) => ReportKeeps(s, p, key, verdict, saved);
      case GameRestart(target) => GameRestartKeeps(s, target);
      case Crash => LifeKeeps(s, step);
      case Restart => LifeKeeps(s, step);
    }
  }

  lemma {:induction false} RunKeeps(s: State, steps: seq<Step>)
    requires Inv(s) && SafeIds(s, steps)
    ensures Inv(Run(s, steps))
    decreases |steps|
  {
    hide Inv, Next, Careless;
    if steps != [] {
      StepKeeps(s, steps[0]);
      RunKeeps(Next(s, steps[0]), steps[1..]);
    }
  }

  // ----------------------------------------------------------------- theorems

  /** Write-ahead safety: however calls, reconciliation, failed saves, crashes,
      reloads and game restarts interleave, an unanswered write that reached the
      transport is on disk at every moment, and in memory whenever the daemon
      runs. */
  lemma UnansweredWritesAreRecorded(steps: seq<Step>)
    requires SafeIds(INITIAL, steps)
    ensures Recorded(Run(INITIAL, steps))
    ensures Run(INITIAL, steps).up ==> Run(INITIAL, steps).items == Run(INITIAL, steps).disk
  {
    RunKeeps(INITIAL, steps);
  }

  /** An id that was never claimed is reclaimable. */
  lemma FreshIdsAreSafe(s: State, key: string, run: nat)
    requires Inv(s) && !SentBefore(s, key)
    ensures Reclaimable(s, key, run)
  {
    forall c | c in s.calls ensures !Open(s.calls[c], key) {
      assert CallOk(s, c);
    }
    assert ReceivedOk(s, key);
  }

  /** No two claims that took effect are of one id. */
  ghost predicate Distinct(claims: map<nat, Stamp>) {
    forall a, b :: a in claims && b in claims && claims[a].key == claims[b].key ==> a == b
  }

  lemma ClaimsStay(s: State, step: Step)
    ensures forall c :: c in s.claims ==> c in Next(s, step).claims && Next(s, step).claims[c] == s.claims[c]
    ensures Enabled(s, step) && step.Claim? && Succeeds(s, step.key, step.saved) ==>
              step.call !in s.claims && step.call in Next(s, step).claims && Next(s, step).claims[step.call].key == step.key
  {
    hide DoReport, DoSettle, DoHandOver, DoGameRestart, RunOf;
  }

  /** While all claims are of different ids, all of them are safe. */
  lemma {:induction false} DistinctIsSafe(s: State, steps: seq<Step>)
    requires Inv(s) && Distinct(Run(s, steps).claims)
    ensures SafeIds(s, steps)
    ensures forall c :: c in s.claims ==> c in Run(s, steps).claims && Run(s, steps).claims[c] == s.claims[c]
    decreases |steps|
  {
    hide Inv, Next, Reclaimable, Succeeds, Enabled;
    if steps != [] {
      var step, s' := steps[0], Next(s, steps[0]);
      ClaimsStay(s, step);
      if Careless(s, step) {
        RunClaimsStay(s', steps[1..]);
        assert !SentBefore(s, step.key);
        FreshIdsAreSafe(s, step.key, step.run);
      }
      StepKeeps(s, step);
      DistinctIsSafe(s', steps[1..]);
    }
  }

  lemma {:induction false} RunClaimsStay(s: State, steps: seq<Step>)
    ensures forall c :: c in s.claims ==> c in Run(s, steps).claims && Run(s, steps).claims[c] == s.claims[c]
    decreases |steps|
  {
    hide Next;
    if steps != [] {
      ClaimsStay(s, steps[0]);
      RunClaimsStay(Next(s, steps[0]), steps[1..]);
    }
  }

  /** Nothing is ever lost unless an id was claimed twice. */
  lemma LossMeansReuse(steps: seq<Step>)
    requires !Recorded(Run(INITIAL, steps))
    ensures !Distinct(Run(INITIAL, steps).claims)
  {
    if Distinct(Run(INITIAL, steps).claims) {
      DistinctIsSafe(INITIAL, steps);
      UnansweredWritesAreRecorded(steps);
    }
  }

  /** Claiming an id again is safe, over everything that may follow, if and only
      if it is reclaimable. */
  lemma ReclaimIsSafeExactly(s: State, c: nat, key: string, run: nat)
    requires Inv(s) && Enabled(s, Claim(c, key, run, true)) && Succeeds(s, key, true)
    ensures var s' := Apply(s, Claim(c, key, run, true));
            Reclaimable(s, key, run) <==> forall steps :: SafeIds(s', steps) ==> Recorded(Run(s', steps))
  {
    var s' := Apply(s, Claim(c, key, run, true));
    if Reclaimable(s, key, run) {
      ClaimKeeps(s, c, key, run, true);
      forall steps | SafeIds(s', steps) ensures Recorded(Run(s', steps)) {
        RunKeeps(s', steps);
      }
    } else {
      var steps := LosingSteps(s, c, key, run);
    }
  }

  /** A pass that holds a copy of the current run reports the first call's end
      for the second call's entry, before that call is even handed over. */
  lemma LosesCopied(s: State, c: nat, key: string, p: nat) returns (steps: seq<Step>)
    requires s.up && c in s.calls && s.calls[c] == Claimed(key) && c in s.claims && s.claims[c].key == key
    requires c !in s.answered && key in s.received && s.received[key] != c
    requires Enabled(s, Report(p, key, Final, true))
    ensures SafeIds(s, steps) && !Recorded(Run(s, steps))
  {
    var s1 := Next(s, Report(p, key, Final, true));
    assert s1.calls == s.calls && key !in s1.disk && c !in s1.answered && s1.up && s1.claims == s.claims;
    var s2 := Next(s1, HandOver(c, false));
    assert c in s2.handed && c !in s2.answered && key !in s2.disk && s2.claims == s.claims;
    steps := [Report(p, key, Final, true), HandOver(c, false)];
    assert !Held(s2, c);
    hide Next, Apply, Enabled;
    TwoSteps(s, Report(p, key, Final, true), HandOver(c, false));
  }

  /** A claim for the run that received the id is asked about by the next pass. */
  lemma LosesReceived(s: State, c: nat, key: string) returns (steps: seq<Step>)
    requires s.up && c in s.calls && s.calls[c] == Claimed(key) && c in s.claims && s.claims[c].key == key
    requires c !in s.answered && key in s.received && s.received[key] != c
    requires key in s.items && s.items[key].run == RunOf(s, key)
    ensures SafeIds(s, steps) && !Recorded(Run(s, steps))
  {
    var fetched := Next(s, Fetch(0, {key}));
    assert fetched == s.(passes := fetched.passes) && fetched.passes[0][key] == s.items[key];
    assert RunOf(fetched, key) == RunOf(s, key);
    var rest := LosesCopied(fetched, c, key, 0);
    steps := [Fetch(0, {key})] + rest;
    assert steps[1..] == rest;
    hide Next, Enabled, Recorded, Reclaimable, Succeeds;
  }

  /** An open first call resolves the id under the second one. */
  lemma LosesOpen(s: State, c: nat, key: string, first: nat) returns (steps: seq<Step>)
    requires s.up && c in s.calls && s.calls[c] == Claimed(key) && c in s.claims && s.claims[c].key == key
    requires c !in s.answered && first in s.calls && Open(s.calls[first], key)
    ensures SafeIds(s, steps) && !Recorded(Run(s, steps))
  {
    var s1 := Next(s, HandOver(c, false));
    assert s1.calls[first] == s.calls[first] && c in s1.handed && c !in s1.answered && s1.up;
    if s.calls[first].Handed? {
      var s2 := Next(s1, Outcome(first, true));
      var s3 := Next(s2, Settle(first, true));
      assert c in s3.handed && c !in s3.answered && key !in s3.disk && s3.claims == s.claims;
      assert !Held(s3, c);
      steps := [HandOver(c, false), Outcome(first, true), Settle(first, true)];
      hide Next, Apply, Enabled;
      ThreeSteps(s, HandOver(c, false), Outcome(first, true), Settle(first, true));
    } else {
      var s3 := Next(s1, Settle(first, true));
      assert c in s3.handed && c !in s3.answered && key !in s3.disk && s3.claims == s.claims;
      assert !Held(s3, c);
      steps := [HandOver(c, false), Settle(first, true)];
      hide Next, Apply, Enabled;
      TwoSteps(s, HandOver(c, false), Settle(first, true));
    }
  }

  lemma LosingSteps(s: State, c: nat, key: string, run: nat) returns (steps: seq<Step>)
    requires Inv(s) && Enabled(s, Claim(c, key, run, true)) && Succeeds(s, key, true) && !Reclaimable(s, key, run)
    ensures var s' := Apply(s, Claim(c, key, run, true)); SafeIds(s', steps) && !Recorded(Run(s', steps))
  {
    var s' := Apply(s, Claim(c, key, run, true));
    assert Owned(s) && ReceivedOk(s, key);
    assert s'.calls[c] == Claimed(key) && c !in s'.answered && RunOf(s', key) == RunOf(s, key);
    hide Inv, CallsOk, Current, Owned, Recorded, SafeIds, Run;
    if first :| first in s.calls && Open(s.calls[first], key) {
      assert s'.calls[first] == s.calls[first];
      steps := LosesOpen(s', c, key, first);
    } else if run == RunOf(s, key) {
      steps := LosesReceived(s', c, key);
    } else {
      var p :| p in s.passes && key in s.passes[p] && s.passes[p][key].run == RunOf(s, key);
      steps := LosesCopied(s', c, key, p);
    }
  }

  lemma TwoSteps(s: State, a: Step, b: Step)
    requires !a.Claim? && !b.Claim?
    ensures SafeIds(s, [a, b]) && Run(s, [a, b]) == Next(Next(s, a), b)
  {
    hide Next;
    assert [a, b][1..] == [b] && [b][1..] == [];
    assert Run(Next(s, a), [b]) == Run(Next(Next(s, a), b), []);
    assert SafeIds(Next(Next(s, a), b), []) && SafeIds(Next(s, a), [b]);
  }

  lemma ThreeSteps(s: State, a: Step, b: Step, d: Step)
    requires !a.Claim? && !b.Claim? && !d.Claim?
    ensures SafeIds(s, [a, b, d]) && Run(s, [a, b, d]) == Next(Next(Next(s, a), b), d)
  {
    hide Next;
    assert [a, b, d][1..] == [b, d];
    TwoSteps(Next(s, a), b, d);
  }

  // ------------------------------------------------------- a run that loses

  lemma {:induction false} RunAppend(s: State, a: seq<Step>, b: seq<Step>)
    ensures Run(s, a + b) == Run(Run(s, a), b)
    decreases |a|
  {
    hide Next;
    if a == [] {
      assert a + b == b;
    } else {
      assert (a + b)[1..] == a[1..] + b;
      RunAppend(Next(s, a[0]), a[1..], b);
    }
  }

  /** A first use of an id up to its resolution, with a pass that still holds the
      copy it fetched in between; then the id is claimed again. */
  function Reuse(k: string): seq<Step> {
    [Claim(1, k, 0, true)] + [HandOver(1, true)] + [Fetch(0, {k})] + [Outcome(1, true)] + [Settle(1, true)] + [Claim(2, k, 0, true)]
  }

  lemma Then(steps: seq<Step>, step: Step, s: State, t: State)
    requires Run(INITIAL, steps) == s && Next(s, step) == t
    ensures Run(INITIAL, steps + [step]) == t
  {
    hide Next;
    RunAppend(INITIAL, steps, [step]);
    assert [step][1..] == [];
    assert Run(s, [step]) == Run(Next(s, step), []);
  }

  function FirstSent(k: string): State {
    var entry := map[k := Entry(1, "unknown", 0)];
    State(entry, entry, true, map[1 := Handed(k)], map[], map[], map[k := 1], map[1 := Stamp(k, 0)], {1}, {})
  }

  function FirstResolved(k: string): State {
    State(map[], map[], true, map[1 := Closed], map[0 := map[k := Entry(1, "unknown", 0)]], map[], map[k := 1],
          map[1 := Stamp(k, 0)], {1}, {1})
  }

  function SecondClaimed(k: string): State {
    var entry := map[k := Entry(2, "unknown", 0)];
    FirstResolved(k).(items := entry, disk := entry, calls := map[1 := Closed, 2 := Claimed(k)],
                      claims := map[1 := Stamp(k, 0), 2 := Stamp(k, 0)])
  }

  function SecondSent(k: string): State {
    SecondClaimed(k).(items := map[], disk := map[], calls := map[1 := Closed, 2 := Handed(k)], handed := {1, 2})
  }

  lemma SendsFirst(k: string)
    ensures Run(INITIAL, [Claim(1, k, 0, true)] + [HandOver(1, true)]) == FirstSent(k)
  {
    var claimed := FirstSent(k).(calls := map[1 := Claimed(k)], handed := {}, received := map[]);
    assert Next(INITIAL, Claim(1, k, 0, true)) == claimed;
    assert Next(claimed, HandOver(1, true)) == FirstSent(k);
    assert Run(INITIAL, []) == INITIAL && [] + [Claim(1, k, 0, true)] == [Claim(1, k, 0, true)];
    hide Next, FirstSent;
    Then([], Claim(1, k, 0, true), INITIAL, claimed);
    Then([Claim(1, k, 0, true)], HandOver(1, true), claimed, FirstSent(k));
  }

  lemma FetchesFirst(k: string)
    ensures Next(FirstSent(k), Fetch(0, {k})) == FirstSent(k).(passes := FirstResolved(k).passes)
  {
    var s := FirstSent(k);
    assert Copies(s.items, {k}) == map[k := Entry(1, "unknown", 0)];
    assert map[][0 := Copies(s.items, {k})] == FirstResolved(k).passes;
  }

  lemma ResolvesFirst(k: string)
    ensures Run(INITIAL, [Claim(1, k, 0, true)] + [HandOver(1, true)] + [Fetch(0, {k})] + [Outcome(1, true)] + [Settle(1, true)])
         == FirstResolved(k)
  {
    var s := FirstSent(k).(passes := FirstResolved(k).passes);
    var t := s.(calls := map[1 := Answered(k)], answered := {1});
    assert Next(s, Outcome(1, true)) == t;
    assert Next(t, Settle(1, true)) == FirstResolved(k);
    FetchesFirst(k);
    SendsFirst(k);
    hide Next, FirstSent, FirstResolved;
    Then([Claim(1, k, 0, true)] + [HandOver(1, true)], Fetch(0, {k}), FirstSent(k), s);
    Then([Claim(1, k, 0, true)] + [HandOver(1, true)] + [Fetch(0, {k})], Outcome(1, true), s, t);
    Then([Claim(1, k, 0, true)] + [HandOver(1, true)] + [Fetch(0, {k})] + [Outcome(1, true)], Settle(1, true), t, FirstResolved(k));
  }

  lemma ClaimsAgain(k: string)
    ensures Run(INITIAL, Reuse(k)) == SecondClaimed(k)
  {
    assert Next(FirstResolved(k), Claim(2, k, 0, true)) == SecondClaimed(k);
    ResolvesFirst(k);
    hide Next, FirstResolved, SecondClaimed;
    Then([Claim(1, k, 0, true)] + [HandOver(1, true)] + [Fetch(0, {k})] + [Outcome(1, true)] + [Settle(1, true)],
         Claim(2, k, 0, true), FirstResolved(k), SecondClaimed(k));
  }

  /** The stale copy's final report removes the second entry. */
  lemma LosesSecond(k: string)
    ensures Next(Next(SecondClaimed(k), Report(0, k, Final, true)), HandOver(2, true)) == SecondSent(k)
    ensures !Recorded(SecondSent(k))
  {
    var s := SecondClaimed(k);
    assert s.items - {k} == map[] && s.answered + {1} == {1};
    assert Next(s, Report(0, k, Final, true)) == s.(items := map[], disk := map[]);
    assert !Held(SecondSent(k), 2) && 2 in SecondSent(k).handed;
  }

  /** Reusing an id in one game run, while a pass still holds a copy of its
      first entry, loses the second call's entry while it is unanswered. */
  lemma ReusedIdLosesAnEntry(k: string) returns (steps: seq<Step>)
    ensures Reuse(k) <= steps
    ensures var s := Run(INITIAL, Reuse(k));
            && s.claims == map[1 := Stamp(k, 0), 2 := Stamp(k, 0)] && RunOf(s, k) == 0
            && s.calls == map[1 := Closed, 2 := Claimed(k)] && s.passes == map[0 := map[k := Entry(1, "unknown", 0)]]
    ensures var s := Run(INITIAL, steps); s.up && 2 in s.handed && 2 !in s.answered && k !in s.disk && !Recorded(s)
  {
    ClaimsAgain(k);
    LosesSecond(k);
    hide Run, Next, Recorded, Reuse;
    var s := Next(SecondClaimed(k), Report(0, k, Final, true));
    Then(Reuse(k), Report(0, k, Final, true), SecondClaimed(k), s);
    Then(Reuse(k) + [Report(0, k, Final, true)], HandOver(2, true), s, SecondSent(k));
    steps := Reuse(k) + [Report(0, k, Final, true)] + [HandOver(2, true)];
  }
}
