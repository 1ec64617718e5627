/** What a section's import does with each single entry, stored or in the file, and what it reports. */
module SectionResults {
  import opened Options
  import opened Texts
  import opened ImportReport
  import opened SectionImport
  import opened SectionConvergence

  /** One of the report's items from an index on. */
  predicate Reports(items: seq<Item>, from: nat, name: string, action: Action) {
    exists i :: from <= i < |items| && items[i] == Item(name, action, "")
  }

  /* ---------- Entries the file does not have ---------- */

  lemma MissingIsRemoved(before: map<Id, Entry>, rows: seq<Id>, items: seq<Entry>, newIDs: seq<Id>, policy: Policy,
                         used: set<Id>, refused: set<string>, outcome: Outcome, id: Id)
    requires UniqueNames(before) && Listing(rows, before) && UniqueItems(items) && |newIDs| == |items|
        && NewIDs(newIDs, before)
    requires outcome == Overwrite(before, rows, items, newIDs, policy, used, refused) && NoConflicts(outcome.items)
    requires id in before && Key(before[id]) !in Keys(items)
    ensures exists now: map<Id, Entry> ::
              id in now && now[id] == before[id] && Removed(outcome.entries, now, before, id, policy, used)
  {
    hide Overwrite, Key, Keys, Existing, Indexed, UniqueNames, NoConflicts, UniqueItems, NewIDs, Removed;
    var existing, now := PassesDoTheirWork(before, rows, items, newIDs, policy, used, refused);
    WrittenLeavesOthers(now, before, existing, items, newIDs);
    ListedAll(rows, before, id);
    hide Written, Listing, Listed;
    assert Leaves(before, rows, |rows|, Keys(items), id);
  }

  /** A conflict-free overwrite keeps exactly the used ones of the device types the file does not have, as they are; of
      the competencies the used ones, inactive; and of the processes all, inactive. */
  lemma MissingEntriesLeave(before: map<Id, Entry>, rows: seq<Id>, items: seq<Entry>, newIDs: seq<Id>, policy: Policy,
                            used: set<Id>, refused: set<string>, outcome: Outcome, id: Id)
    requires UniqueNames(before) && Listing(rows, before) && UniqueItems(items) && |newIDs| == |items|
        && NewIDs(newIDs, before)
    requires outcome == Overwrite(before, rows, items, newIDs, policy, used, refused) && NoConflicts(outcome.items)
    requires id in before && Key(before[id]) !in Keys(items)
    ensures policy == DeviceTypes || policy == Competencies ==> (id in outcome.entries <==> id in used)
    ensures policy == Processes ==> id in outcome.entries
    ensures id in outcome.entries ==>
              outcome.entries[id] == if policy == DeviceTypes then before[id] else before[id].(active := false)
  {
    hide Overwrite, Key, Keys, Listing, UniqueNames, NoConflicts, UniqueItems, NewIDs;
    MissingIsRemoved(before, rows, items, newIDs, policy, used, refused, outcome, id);
    var now: map<Id, Entry> :| id in now && now[id] == before[id]
        && Removed(outcome.entries, now, before, id, policy, used);
    assert !before[id].active ==> before[id].(active := false) == before[id];
  }

  /** What the removal reports about a row the file does not have, where nothing is refused. */
  predicate RemovalReported(items: seq<Item>, from: nat, policy: Policy, e: Entry, used: bool) {
    && (policy == DeviceTypes ==> Reports(items, from, e.name, if used then ActionKeep else ActionDelete))
    && (policy == Competencies && !used ==> Reports(items, from, e.name, ActionDelete))
    && (policy == Processes || (policy == Competencies && used) ==>
          Reports(items, from, e.name, if e.active then ActionDeactivate else ActionKeep))
  }

  lemma ReportsLater(items: seq<Item>, item: Item, from: nat, name: string, action: Action)
    requires Reports(items, from, name, action)
    ensures Reports(items + [item], from, name, action)
  {
    var i :| from <= i < |items| && items[i] == Item(name, action, "");
    assert (items + [item])[i] == items[i];
  }

  lemma ReportedLater(items: seq<Item>, item: Item, from: nat, policy: Policy, e: Entry, used: bool)
    requires RemovalReported(items, from, policy, e, used)
    ensures RemovalReported(items + [item], from, policy, e, used)
  {
    hide Reports;
    forall action | Reports(items, from, e.name, action) ensures Reports(items + [item], from, e.name, action) {
      ReportsLater(items, item, from, e.name, action);
    }
  }

  lemma EntryReported(now: Outcome, before: map<Id, Entry>, id: Id, policy: Policy, used: set<Id>, refused: set<string>)
    requires id in before
    ensures var after := PruneEntry(now, before, id, policy, used, refused);
            && |after.items| == |now.items| + 1 && after.items == now.items + [after.items[|now.items|]]
            && (NoConflicts(after.items) ==>
                  RemovalReported(after.items, |now.items|, policy, before[id], id in used))
  {
    var after := PruneEntry(now, before, id, policy, used, refused);
    var last := after.items[|now.items|];
    assert last.action != ActionConflict ==> Reports(after.items, |now.items|, before[id].name, last.action);
  }

  lemma ReportedFromEarlier(items: seq<Item>, from: nat, earlier: nat, policy: Policy, e: Entry, used: bool)
    requires RemovalReported(items, from, policy, e, used) && earlier <= from
    ensures RemovalReported(items, earlier, policy, e, used)
  {
    hide Reports;
    forall action | Reports(items, from, e.name, action) ensures Reports(items, earlier, e.name, action) {
      ReportsEarlier(items, from, earlier, e.name, action);
    }
  }

  lemma ReportsEarlier(items: seq<Item>, from: nat, earlier: nat, name: string, action: Action)
    requires Reports(items, from, name, action) && earlier <= from
    ensures Reports(items, earlier, name, action)
  {
  }

  /** A removal pass without conflicts reports for every row that the file does not have what became of it. */
  lemma {:induction false} RemovalsReport(now: Outcome, before: map<Id, Entry>, rows: seq<Id>, inFile: set<string>,
                                        policy: Policy, used: set<Id>, refused: set<string>)
    requires forall i :: 0 <= i < |rows| ==> rows[i] in before
    requires NoConflicts(PruneAll(now, before, rows, inFile, policy, used, refused).items)
    ensures var after := PruneAll(now, before, rows, inFile, policy, used, refused);
            && |after.items| >= |now.items| && after.items[..|now.items|] == now.items
            && forall id :: id in rows && Key(before[id]) !in inFile ==>
                 RemovalReported(after.items, |now.items|, policy, before[id], id in used)
  {
    hide Key, PruneEntry, RemovalReported;
    if rows != [] {
      var last := |rows| - 1;
      var earlier := PruneAll(now, before, rows[..last], inFile, policy, used, refused);
      PruneKeepsItems(earlier, before, rows[last], policy, used, refused);
      RemovalsReport(now, before, rows[..last], inFile, policy, used, refused);
      hide NoConflicts;
      if Key(before[rows[last]]) !in inFile {
        RemovalsReportOne(now, earlier, before, rows, inFile, policy, used, refused);
      } else {
        assert forall id :: id in rows && id != rows[last] ==> id in rows[..last];
      }
    }
  }

  lemma RemovalsReportOne(now: Outcome, earlier: Outcome, before: map<Id, Entry>, rows: seq<Id>, inFile: set<string>,
                          policy: Policy, used: set<Id>, refused: set<string>)
    requires rows != [] && (forall i :: 0 <= i < |rows| ==> rows[i] in before)
    requires |earlier.items| >= |now.items| && earlier.items[..|now.items|] == now.items
    requires forall id :: id in rows[..|rows| - 1] && Key(before[id]) !in inFile ==>
               RemovalReported(earlier.items, |now.items|, policy, before[id], id in used)
    requires NoConflicts(PruneEntry(earlier, before, rows[|rows| - 1], policy, used, refused).items)
    ensures var after := PruneEntry(earlier, before, rows[|rows| - 1], policy, used, refused);
            && |after.items| >= |now.items| && after.items[..|now.items|] == now.items
            && forall id :: id in rows && Key(before[id]) !in inFile ==>
                 RemovalReported(after.items, |now.items|, policy, before[id], id in used)
  {
    hide Key, PruneEntry, RemovalReported, NoConflicts;
    var row := rows[|rows| - 1];
    var after := PruneEntry(earlier, before, row, policy, used, refused);
    EntryReported(earlier, before, row, policy, used, refused);
    ReportedFromEarlier(after.items, |earlier.items|, |now.items|, policy, before[row], row in used);
    forall id | id in rows && Key(before[id]) !in inFile
      ensures RemovalReported(after.items, |now.items|, policy, before[id], id in used)
    {
      if id != row {
        assert id in rows[..|rows| - 1];
        ReportedLater(earlier.items, after.items[|earlier.items|], |now.items|, policy, before[id], id in used);
      }
    }
  }

  /* ---------- Entries of the file ---------- */

  /** What is reported about an entry of the file: it is created when no stored entry has its key, skipped when it is
      stored already, as it is or, in insert mode, at all, and updated otherwise; a refusal is a conflict. */
  predicate WriteReported(item: Item, e: Entry, before: map<Id, Entry>, existing: map<string, Id>, refused: set<string>,
                          insert: bool)
    requires forall k :: k in existing ==> existing[k] in before
  {
    && item.name == e.name && item.code == ""
    && var stored := Key(e) in existing;
       && (item.action == ActionSkip <==> stored && (insert || before[existing[Key(e)]] == e))
       && (item.action == ActionCreate <==> !stored && e.name !in refused)
       && (item.action == ActionUpdate <==>
             stored && !insert && before[existing[Key(e)]] != e && e.name !in refused)
       && (item.action == ActionConflict <==>
             e.name in refused && (if stored then !insert && before[existing[Key(e)]] != e else true))
  }

  lemma EntryWriteReported(now: Outcome, before: map<Id, Entry>, existing: map<string, Id>, e: Entry, newID: Id,
                           refused: set<string>, insert: bool)
    requires forall k :: k in existing ==> existing[k] in before
    ensures var after := WriteEntry(now, before, existing, e, newID, refused, insert);
            && |after.items| == |now.items| + 1 && after.items[..|now.items|] == now.items
            && WriteReported(after.items[|now.items|], e, before, existing, refused, insert)
  {
    hide Key;
  }

  /** The write pass reports one item for each entry of the file, in the file's order. */
  lemma {:induction false} WritesReport(before: map<Id, Entry>, existing: map<string, Id>, items: seq<Entry>,
                                        newIDs: seq<Id>, refused: set<string>, insert: bool)
    requires |newIDs| == |items| && forall k :: k in existing ==> existing[k] in before
    ensures var after := WriteAll(Outcome(before, []), before, existing, items, newIDs, refused, insert);
            && |after.items| == |items|
            && forall k :: 0 <= k < |items| ==>
                 WriteReported(after.items[k], items[k], before, existing, refused, insert)
    decreases |items|
  {
    hide Key, WriteEntry, WriteReported;
    if items != [] {
      var last := |items| - 1;
      var now := WriteAll(Outcome(before, []), before, existing, items[..last], newIDs[..last], refused, insert);
      WritesReport(before, existing, items[..last], newIDs[..last], refused, insert);
      EntryWriteReported(now, before, existing, items[last], newIDs[last], refused, insert);
      var after := WriteEntry(now, before, existing, items[last], newIDs[last], refused, insert);
      assert forall k :: 0 <= k < last ==> after.items[k] == after.items[..|now.items|][k] == now.items[k];
    }
  }

  /** Both modes store every entry of the file whose name was free and is not refused, under the id meant for it. */
  lemma {:induction false} NewNamesAreStored(before: map<Id, Entry>, existing: map<string, Id>, items: seq<Entry>,
                                        newIDs: seq<Id>, refused: set<string>, insert: bool, n: nat, k: nat)
    requires Indexed(existing, before) && k < n <= |items| == |newIDs| && NewIDs(newIDs, before)
    requires Key(items[k]) !in existing && items[k].name !in refused
    ensures var after := WriteAll(Outcome(before, []), before, existing, items[..n], newIDs[..n], refused, insert);
            newIDs[k] in after.entries && after.entries[newIDs[k]] == items[k]
  {
    hide Key;
    var now := WriteAll(Outcome(before, []), before, existing, items[..n - 1], newIDs[..n - 1], refused, insert);
    assert items[..n][..n - 1] == items[..n - 1] && newIDs[..n][..n - 1] == newIDs[..n - 1];
    if k < n - 1 {
      NewNamesAreStored(before, existing, items, newIDs, refused, insert, n - 1, k);
      assert Key(items[n - 1]) in existing ==> existing[Key(items[n - 1])] in before;
    }
  }

  /** Names of entries that differ only in the case of ASCII letters are one name to the import. */
  lemma CaseDoesNotMatter(e: Entry, f: Entry)
    requires |e.name| == |f.name| && forall i :: 0 <= i < |e.name| ==> SameLetter(e.name[i], f.name[i])
    ensures Key(e) == Key(f)
  {
    KeyIgnoresCase(e.name, f.name);
  }
}
