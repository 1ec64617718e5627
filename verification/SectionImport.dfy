/** Importing a section of named entries: one pass that writes the file's entries, and in overwrite mode a second one
    that removes what the file does not have. */
module SectionImport {
  import opened Options
  import opened Texts
  import opened ImportReport

  type Id = nat

  datatype Entry = Entry(name: string, body: string, active: bool)

  /** How entries that are missing from the file leave. */
  datatype Policy = DeviceTypes | Competencies | Processes

  datatype Outcome = Outcome(entries: map<Id, Entry>, items: seq<Item>)

  function Key(e: Entry): string { NameKey(e.name) }

  function Keys(items: seq<Entry>): set<string> { set i | 0 <= i < |items| :: Key(items[i]) }

  /** The stored id of each key, as listed before the import. */
  function Existing(before: map<Id, Entry>, rows: seq<Id>): (existing: map<string, Id>)
    requires forall i :: 0 <= i < |rows| ==> rows[i] in before
    ensures forall k :: k in existing ==> existing[k] in before && Key(before[existing[k]]) == k
  {
    if rows == [] then map[]
    else
      var last := |rows| - 1;
      Existing(before, rows[..last])[Key(before[rows[last]]) := rows[last]]
  }

  /** One attempt: a refused write is rolled back and becomes a conflict. */
  function Attempted(now: Outcome, name: string, refused: set<string>, action: Action,
                     written: map<Id, Entry>): Outcome {
    if name in refused then Outcome(now.entries, now.items + [Item(name, ActionConflict, "")])
    else Outcome(written, now.items + [Item(name, action, "")])
  }

  function Recorded(now: Outcome, name: string, action: Action): Outcome
  {
    Outcome(now.entries, now.items + [Item(name, action, "")])
  }

  function WriteEntry(now: Outcome, before: map<Id, Entry>, existing: map<string, Id>, item: Entry, newID: Id,
                      refused: set<string>, insert: bool): Outcome
    requires forall k :: k in existing ==> existing[k] in before
  {
    if Key(item) !in existing then Attempted(now, item.name, refused, ActionCreate, now.entries[newID := item])
    else
      var id := existing[Key(item)];
      if insert then Recorded(now, item.name, ActionSkip)
      else if before[id] == item then Recorded(now, item.name, ActionSkip)
      else Attempted(now, item.name, refused, ActionUpdate, now.entries[id := item])
  }

  function WriteAll(now: Outcome, before: map<Id, Entry>, existing: map<string, Id>, items: seq<Entry>, newIDs: seq<Id>,
                    refused: set<string>, insert: bool): Outcome
    requires |newIDs| == |items| && forall k :: k in existing ==> existing[k] in before
    decreases |items|
  {
    if items == [] then now
    else
      var last := |items| - 1;
      WriteEntry(WriteAll(now, before, existing, items[..last], newIDs[..last], refused, insert), before, existing,
          items[last], newIDs[last], refused, insert)
  }

  /** What happens to an entry that is missing from the file. */
  datatype Leaving = Deletes | Deactivates | Keeps

  function Leave(policy: Policy, e: Entry, used: bool): Leaving {
    match policy
    case DeviceTypes => if used then Keeps else Deletes
    case Competencies => if !used then Deletes else if !e.active then Keeps else Deactivates
    case Processes => if !e.active then Keeps else Deactivates
  }

  function PruneEntry(now: Outcome, before: map<Id, Entry>, id: Id, policy: Policy, used: set<Id>,
                      refused: set<string>): Outcome
    requires id in before
  {
    match Leave(policy, before[id], id in used)
    case Keeps => Recorded(now, before[id].name, ActionKeep)
    case Deletes => Attempted(now, before[id].name, refused, ActionDelete, now.entries - {id})
    case Deactivates => Attempted(now, before[id].name, refused, ActionDeactivate,
        now.entries[id := before[id].(active := false)])
  }

  function PruneAll(now: Outcome, before: map<Id, Entry>, rows: seq<Id>, inFile: set<string>, policy: Policy,
                    used: set<Id>, refused: set<string>): Outcome
    requires forall i :: 0 <= i < |rows| ==> rows[i] in before
  {
    if rows == [] then now
    else
      var last := |rows| - 1;
      var earlier := PruneAll(now, before, rows[..last], inFile, policy, used, refused);
      if Key(before[rows[last]]) in inFile then earlier
          else PruneEntry(earlier, before, rows[last], policy, used, refused)
  }

  /* ---------- As the program does it ---------- */

  class SectionRun {
    var entries: map<Id, Entry>
    const report: SectionReport
    /** The names whose writes the services refuse. */
    const refused: set<string>

    ghost predicate Valid()
      reads this, report
    {
      report.Valid()
    }

    ghost function Now(): Outcome
      reads this, report
    {
      Outcome(entries, report.items)
    }

    constructor (entries: map<Id, Entry>, refused: set<string>)
      ensures Valid() && Now() == Outcome(entries, []) && this.refused == refused && fresh(report)
    {
      this.entries, this.refused := entries, refused;
      report := new SectionReport();
    }

    method Attempt(name: string, action: Action, written: map<Id, Entry>)
      requires Valid()
      modifies this, report
      ensures Valid() && Now() == Attempted(old(Now()), name, refused, action, written)
    {
      if name in refused {
        report.Add(Item(name, ActionConflict, ""));
      } else {
        entries := written;
        report.Add(Item(name, action, ""));
      }
    }

    method Record(name: string, action: Action)
      requires Valid()
      modifies report
      ensures Valid() && Now() == Recorded(old(Now()), name, action)
    {
      report.Add(Item(name, action, ""));
    }

    /** Writes the file's entries over the stored ones; newIDs are the ids that creating would use. */
    method Apply(rows: seq<Id>, items: seq<Entry>, newIDs: seq<Id>, insert: bool) returns (inFile: set<string>)
      requires Valid() && |newIDs| == |items| && forall i :: 0 <= i < |rows| ==> rows[i] in entries
      modifies this, report
      ensures Valid() && inFile == Keys(items)
      ensures Now() == WriteAll(old(Now()), old(entries), Existing(old(entries), rows), items, newIDs, refused, insert)
    {
      var before := entries;
      var existing: map<string, Id> := map[];
      for i := 0 to |rows|
        invariant existing == Existing(before, rows[..i])
      {
        assert rows[..i + 1][..i] == rows[..i];
        existing := existing[Key(before[rows[i]]) := rows[i]];
      }
      assert rows[..|rows|] == rows && items[..|items|] == items && newIDs[..|items|] == newIDs;
      inFile := {};
      for i := 0 to |items|
        invariant Valid() && inFile == Keys(items[..i])
        invariant Now() == WriteAll(old(Now()), before, existing, items[..i], newIDs[..i], refused, insert)
      {
        assert items[..i + 1][..i] == items[..i] && newIDs[..i + 1][..i] == newIDs[..i];
        KeysGrow(items, i);
        hide WriteEntry, Existing, Keys;
        WriteOne(before, existing, items[i], newIDs[i], insert);
        inFile := inFile + {Key(items[i])};
      }
    }

    method WriteOne(before: map<Id, Entry>, existing: map<string, Id>, item: Entry, newID: Id, insert: bool)
      requires Valid() && forall k :: k in existing ==> existing[k] in before
      modifies this, report
      ensures Valid() && Now() == WriteEntry(old(Now()), before, existing, item, newID, refused, insert)
    {
      if Key(item) !in existing {
        Attempt(item.name, ActionCreate, entries[newID := item]);
      } else if insert {
        Record(item.name, ActionSkip);
      } else {
        var id := existing[Key(item)];
        var current := before[id];
        if current.name == item.name && current.body == item.body && current.active == item.active {
          Record(item.name, ActionSkip);
        } else {
          Attempt(item.name, ActionUpdate, entries[id := item]);
        }
      }
    }

    /** Removes what the file does not have; before holds the entries as they were listed. */
    method Prune(rows: seq<Id>, before: map<Id, Entry>, inFile: set<string>, policy: Policy, used: set<Id>)
      requires Valid() && forall i :: 0 <= i < |rows| ==> rows[i] in before
      modifies this, report
      ensures Valid() && Now() == PruneAll(old(Now()), before, rows, inFile, policy, used, refused)
    {
      for i := 0 to |rows|
        invariant Valid() && Now() == PruneAll(old(Now()), before, rows[..i], inFile, policy, used, refused)
      {
        assert rows[..i + 1][..i] == rows[..i];
        var row := before[rows[i]];
        if Key(row) in inFile {
          continue;
        }
        if policy == DeviceTypes {
          if rows[i] in used {
            Record(row.name, ActionKeep);
            continue;
          }
          Attempt(row.name, ActionDelete, entries - {rows[i]});
        } else {
          if policy == Competencies && rows[i] !in used {
            Attempt(row.name, ActionDelete, entries - {rows[i]});
            continue;
          }
          if !row.active {
            Record(row.name, ActionKeep);
            continue;
          }
          Attempt(row.name, ActionDeactivate, entries[rows[i] := row.(active := false)]);
        }
      }
      assert rows[..|rows|] == rows;
    }
  }

  lemma {:induction false} ExistingHasAll(before: map<Id, Entry>, rows: seq<Id>)
    requires forall i :: 0 <= i < |rows| ==> rows[i] in before
    ensures forall i :: 0 <= i < |rows| ==> Key(before[rows[i]]) in Existing(before, rows)
  {
    if rows != [] {
      ExistingHasAll(before, rows[..|rows| - 1]);
    }
  }

  lemma KeysGrow(items: seq<Entry>, i: nat)
    requires i < |items|
    ensures Keys(items[..i + 1]) == Keys(items[..i]) + {Key(items[i])}
  {
    assert forall k :: 0 <= k < i ==> items[..i + 1][k] == items[..i][k];
    assert items[..i + 1][i] == items[i];
  }
}
