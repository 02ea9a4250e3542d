/** The bounded, persisted ledger of writes whose outcome is not known. The
    disk is replaced atomically; every save may fail. */
module Ledger {

  const CAPACITY: nat := 512

  datatype Write = Write(target: string, operation: string, requestID: string, at: int, state: string,
                         message: string, instanceID: string, runID: string, credentialHash: string)

  type Table = map<string, Write>

  function Key(target: string, requestID: string): string {
    target + "\0" + requestID
  }

  lemma KeyInjective(t: string, id: string, t': string, id': string)
    requires '\0' !in t && '\0' !in t'
    requires Key(t, id) == Key(t', id')
    ensures t == t' && id == id'
  {
    var k := Key(t, id);
    assert k[|t|] == '\0' && k[|t'|] == '\0';
    assert forall i :: 0 <= i < |t| ==> k[i] == t[i];
    assert forall i :: 0 <= i < |t'| ==> k[i] == t'[i];
    assert |t| == |t'|;
    assert t == k[..|t|] && t' == k[..|t|];
    assert id == k[|t| + 1..] && id' == k[|t| + 1..];
  }

  /** The target a key belongs to: what stands before its first separator. */
  function TargetOf(key: string): string {
    if key == "" || key[0] == '\0' then "" else [key[0]] + TargetOf(key[1..])
  }

  lemma {:induction false} TargetOfKey(target: string, requestID: string)
    requires '\0' !in target
    ensures TargetOf(Key(target, requestID)) == target
    decreases |target|
  {
    if target != "" {
      assert Key(target, requestID)[1..] == Key(target[1..], requestID);
      TargetOfKey(target[1..], requestID);
    }
  }

  /** What is on disk: nothing, something unparsable, or a list of entries. */
  datatype Disk = Missing | Corrupt | Entries(list: seq<Write>)

  /** The table a load builds: later entries win, entries without an id are skipped. */
  function Loaded(list: seq<Write>): Table {
    if list == [] then map[]
    else
      var last := list[|list| - 1];
      var before := Loaded(list[..|list| - 1]);
      if last.requestID == "" then before else before[Key(last.target, last.requestID) := last]
  }

  function Content(disk: Disk): Table {
    if disk.Entries? then Loaded(disk.list) else map[]
  }

  ghost predicate WellKeyed(items: Table) {
    forall k :: k in items ==> items[k].requestID != "" && k == Key(items[k].target, items[k].requestID)
  }

  lemma {:induction false} LoadedWellKeyed(list: seq<Write>)
    ensures WellKeyed(Loaded(list))
  {
    if list != [] {
      LoadedWellKeyed(list[..|list| - 1]);
    }
  }

  ghost predicate OldestFirst(list: seq<Write>) {
    forall i, j :: 0 <= i < j < |list| ==> list[i].at <= list[j].at
  }

  lemma OldestExists(items: Table, keys: set<string>)
    requires keys <= items.Keys && keys != {}
    ensures exists k :: k in keys && forall k' :: k' in keys ==> items[k].at <= items[k'].at
    decreases |keys|
  {
    var k :| k in keys;
    if keys != {k} {
      OldestExists(items, keys - {k});
      var m :| m in keys - {k} && forall k' :: k' in keys - {k} ==> items[m].at <= items[k'].at;
      var oldest := if items[k].at <= items[m].at then k else m;
      assert forall k' :: k' in keys ==> items[oldest].at <= items[k'].at;
    }
  }

  function Restrict(items: Table, keys: set<string>): Table {
    map k | k in items && k in keys :: items[k]
  }

  lemma RestrictGrows(items: Table, keys: set<string>, k: string)
    requires k in items
    ensures Restrict(items, keys + {k}) == Restrict(items, keys)[k := items[k]]
  {}

  lemma LoadedSnoc(list: seq<Write>, w: Write)
    requires w.requestID != ""
    ensures Loaded(list + [w]) == Loaded(list)[Key(w.target, w.requestID) := w]
  {
    assert (list + [w])[..|list|] == list;
  }

  /** A choice of entries in order: each key once, none of it still to come. */
  ghost predicate Ordered(items: Table, list: seq<Write>, order: seq<string>, rest: set<string>) {
    && |order| == |list| && (forall i :: 0 <= i < |list| ==> order[i] in items && list[i] == items[order[i]])
    && (forall i :: 0 <= i < |order| ==> order[i] !in rest)
    && forall i, j :: 0 <= i < j < |order| ==> order[i] != order[j]
  }

  lemma OrderedSnoc(items: Table, list: seq<Write>, order: seq<string>, rest: set<string>, k: string)
    requires Ordered(items, list, order, rest) && k in rest && k in items
    ensures Ordered(items, list + [items[k]], order + [k], rest - {k})
  {}

  /** The chosen entries, oldest first; loading the list gives them back. */
  method Listing(items: Table, chosen: set<string>) returns (list: seq<Write>, ghost order: seq<string>)
    requires WellKeyed(items) && chosen <= items.Keys
    ensures OldestFirst(list) && Loaded(list) == Restrict(items, chosen) && Ordered(items, list, order, {})
    ensures forall k :: k in chosen <==> k in order
  {
    hide Ordered, Key;
    list, order := [], [];
    var rest := chosen;
    NothingOrdered(items, rest);
    while rest != {}
      invariant rest <= chosen
      invariant OldestFirst(list)
      invariant forall i, k :: 0 <= i < |list| && k in rest ==> list[i].at <= items[k].at
      invariant Ordered(items, list, order, rest)
      invariant forall k :: k in chosen - rest <==> k in order
      invariant Loaded(list) == Restrict(items, chosen - rest)
      decreases rest
    {
      OldestExists(items, rest);
      var k :| k in rest && forall k' :: k' in rest ==> items[k].at <= items[k'].at;
      LoadedSnoc(list, items[k]);
      RestrictGrows(items, chosen - rest, k);
      assert chosen - (rest - {k}) == (chosen - rest) + {k};
      OrderedSnoc(items, list, order, rest, k);
      list, order := list + [items[k]], order + [k];
      rest := rest - {k};
    }
    assert chosen - rest == chosen;
  }

  lemma NothingOrdered(items: Table, rest: set<string>)
    ensures Ordered(items, [], [], rest)
  {}

  /** What the system calls of the next operation do: whether the file can be
      read, moved aside, and replaced. */
  datatype Device = Device(readable: bool, movable: bool, writable: bool)

  datatype Admission = Claimed | Existing(write: Write) | Refused

  class UnknownWrites {
    var items: Table
    var disk: Disk
    /** Corrupt files that were moved out of the way. */
    var aside: seq<Disk>
    /** Set by the environment between any two operations. */
    var device: Device

    /** Memory and disk agree, and every entry sits under its own key. */
    ghost predicate Valid()
      reads `items, `disk
    {
      WellKeyed(items) && Content(disk) == items
    }

    /** A fresh process: the table starts empty whatever the disk holds. */
    constructor (disk: Disk, device: Device)
      ensures items == map[] && this.disk == disk && aside == [] && this.device == device
    {
      items, this.disk, aside, this.device := map[], disk, [], device;
    }

    /** Reads the ledger. A missing file is empty; reading may fail; a corrupt
        file is moved aside, or the load fails when it cannot be. Nothing readable
        is ever dropped: a table above the cap is kept and reported. */
    method Load() returns (ok: bool, notice: bool)
      requires items == map[]
      modifies `items, `disk, `aside
      ensures ok <==> old(disk).Missing? || (device.readable && (old(disk).Corrupt? ==> device.movable))
      ensures ok ==> Valid() && items == Content(old(disk))
      ensures ok && old(disk).Corrupt? ==> disk == Missing && aside == old(aside) + [old(disk)]
      ensures !(ok && old(disk).Corrupt?) ==> disk == old(disk) && aside == old(aside)
      ensures ok ==> (notice <==> old(disk).Corrupt? || |items| > 512)
      ensures !ok ==> items == map[] && !notice
    {
      ok, notice := true, false;
      if disk.Missing? {
        return;
      }
      if !device.readable {
        return false, false;
      }
      match disk {
        case Missing =>
        case Corrupt =>
          ok, notice := device.movable, device.movable;
          if ok {
            disk, aside := Missing, aside + [disk];
          }
        case Entries(list) =>
          for i := 0 to |list|
            invariant items == Loaded(list[..i]) && disk == old(disk) && aside == old(aside) && ok
          {
            var entry := list[i];
            assert list[..i + 1][..i] == list[..i];
            if entry.requestID != "" {
              items := items[Key(entry.target, entry.requestID) := entry];
            }
          }
          assert list[..|list|] == list;
          LoadedWellKeyed(list);
          notice := |items| > CAPACITY;
      }
    }

    /** Writes a temporary file and renames it: the disk changes completely or
        not at all, and any of the system calls may fail. */
    method SaveLocked() returns (ok: bool)
      requires WellKeyed(items)
      modifies `disk
      ensures ok <==> device.writable
      ensures if ok then Content(disk) == items && disk.Entries? && OldestFirst(disk.list) else disk == old(disk)
    {
      var list, _ := Listing(items, items.Keys);
      assert Restrict(items, items.Keys) == items;
      ok := device.writable;
      if ok {
        disk := Entries(list);
      }
    }

    /** Claims a request id before it can be sent. One caller per id gets
        `Claimed`, and then the entry is on disk; every other outcome leaves
        memory and disk as they were. */
    method Admit(target: string, operation: string, requestID: string, at: int, instanceID: string, runID: string,
                 credentialHash: string) returns (r: Admission)
      requires Valid()
      modifies `items, `disk
      ensures Valid()
      ensures var k := Key(target, requestID);
              && (requestID != "" && k in old(items) ==> r == Existing(old(items)[k]))
              && (r.Existing? ==> requestID != "" && k in old(items))
              && (r.Claimed? ==>
                    && requestID != "" && k !in old(items) && |old(items)| < CAPACITY
                    && items == old(items)[k := Write(target, operation, requestID, at, "unknown", "",
                                                      instanceID, runID, credentialHash)])
              && (!r.Claimed? ==> items == old(items) && disk == old(disk))
      ensures r.Claimed? <==>
                requestID != "" && Key(target, requestID) !in old(items) && |old(items)| < 512 && device.writable
    {
      if requestID == "" {
        return Refused;
      }
      var k := Key(target, requestID);
      if k in items {
        return Existing(items[k]);
      }
      if |items| >= CAPACITY {
        return Refused;
      }
      var before := items;
      items := items[k := Write(target, operation, requestID, at, "unknown", "", instanceID, runID, credentialHash)];
      var saved := SaveLocked();
      if !saved {
        items := items - {k};
        assert items == before;
        return Refused;
      }
      r := Claimed;
    }

    /** Rewrites the state and message of an entry that still exists, or changes nothing. */
    method Restate(target: string, requestID: string, state: string, message: string) returns (ok: bool)
      requires Valid()
      modifies `items, `disk
      ensures Valid()
      ensures var k := Key(target, requestID);
              if ok && k in old(items) then items == old(items)[k := old(items)[k].(state := state, message := message)]
              else items == old(items) && disk == old(disk)
      ensures ok <==> Key(target, requestID) !in old(items) || device.writable
    {
      var k := Key(target, requestID);
      if k !in items {
        return true;
      }
      var previous := items[k];
      var before := items;
      items := items[k := previous.(state := state, message := message)];
      ok := SaveLocked();
      if !ok {
        items := items[k := previous];
        assert items == before;
      }
    }

    method NoteUnknown(target: string, requestID: string, message: string) returns (ok: bool)
      requires Valid()
      modifies `items, `disk
      ensures Valid()
      ensures var k := Key(target, requestID);
              if ok && k in old(items) then items == old(items)[k := old(items)[k].(state := "unknown", message := message)]
              else items == old(items) && disk == old(disk)
      ensures ok <==> Key(target, requestID) !in old(items) || device.writable
    {
      ok := Restate(target, requestID, "unknown", message);
    }

    method MarkUnresolved(target: string, requestID: string, message: string) returns (ok: bool)
      requires Valid()
      modifies `items, `disk
      ensures Valid()
      ensures var k := Key(target, requestID);
              if ok && k in old(items) then items == old(items)[k := old(items)[k].(state := "unresolved", message := message)]
              else items == old(items) && disk == old(disk)
      ensures ok <==> Key(target, requestID) !in old(items) || device.writable
    {
      ok := Restate(target, requestID, "unresolved", message);
    }

    /** The only removal: the entry leaves memory and disk together or stays in both. */
    method Resolve(target: string, requestID: string) returns (ok: bool)
      requires Valid()
      modifies `items, `disk
      ensures Valid()
      ensures var k := Key(target, requestID);
              if ok && k in old(items) then items == old(items) - {k} else items == old(items) && disk == old(disk)
      ensures ok <==> Key(target, requestID) !in old(items) || device.writable
    {
      var k := Key(target, requestID);
      if k !in items {
        return true;
      }
      var entry, before := items[k], items;
      items := items - {k};
      ok := SaveLocked();
      if !ok {
        items := items[k := entry];
        assert items == before;
      }
    }

    /** Copies of one target's entries, oldest first. */
    method ForTarget(target: string) returns (list: seq<Write>)
      requires Valid()
      ensures OldestFirst(list)
      ensures forall w :: w in list <==>
                w.target == target && Key(target, w.requestID) in items && items[Key(target, w.requestID)] == w
      ensures forall i, j :: 0 <= i < j < |list| ==> list[i].requestID != list[j].requestID
    {
      var chosen := set k | k in items && items[k].target == target;
      ghost var order;
      list, order := Listing(items, chosen);
      forall w | w in list ensures w.target == target && Key(target, w.requestID) in items && items[Key(target, w.requestID)] == w {
        var i :| 0 <= i < |list| && list[i] == w;
        assert order[i] in order && items[order[i]] == w;
      }
      forall k | k in chosen ensures items[k] in list {
        var i :| 0 <= i < |order| && order[i] == k;
        assert list[i] == items[k];
      }
      forall i, j | 0 <= i < j < |list| ensures list[i].requestID != list[j].requestID {
        assert Key(list[i].target, list[i].requestID) == order[i] && Key(list[j].target, list[j].requestID) == order[j];
      }
    }
  }
}
