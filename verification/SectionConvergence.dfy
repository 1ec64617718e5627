/** One overwrite makes a section equal to the file, and a second one finds nothing to do. */
module SectionConvergence {
  import opened Options
  import opened Texts
  import opened ImportReport
  import opened SectionImport

  ghost predicate UniqueNames(entries: map<Id, Entry>) {
    forall i, j :: i in entries && j in entries && Key(entries[i]) == Key(entries[j]) ==> i == j
  }

  predicate UniqueItems(items: seq<Entry>) { forall i, j :: 0 <= i < j < |items| ==> Key(items[i]) != Key(items[j]) }

  /** The rows list the stored entries, each once. */
  ghost predicate Listing(rows: seq<Id>, entries: map<Id, Entry>) {
    && (forall i :: 0 <= i < |rows| ==> rows[i] in entries) && (forall id :: id in entries ==> id in rows)
    && (forall i, j :: 0 <= i < j < |rows| ==> rows[i] != rows[j])
  }

  predicate NewIDs(newIDs: seq<Id>, entries: map<Id, Entry>) {
    (forall i :: 0 <= i < |newIDs| ==> newIDs[i] !in entries)
        && (forall i, j :: 0 <= i < j < |newIDs| ==> newIDs[i] != newIDs[j])
  }

  predicate NoConflicts(items: seq<Item>) { forall i :: 0 <= i < |items| ==> items[i].action != ActionConflict }

  /** The id an entry of the file is stored under. */
  function Target(existing: map<string, Id>, item: Entry, newID: Id): Id
  {
    if Key(item) in existing then existing[Key(item)] else newID
  }

  ghost predicate Indexed(existing: map<string, Id>, before: map<Id, Entry>) {
    && (forall k :: k in existing ==> existing[k] in before && Key(before[existing[k]]) == k)
    && (forall id :: id in before ==> Key(before[id]) in existing && existing[Key(before[id])] == id)
  }

  lemma ListedIsIndexed(rows: seq<Id>, before: map<Id, Entry>)
    requires Listing(rows, before) && UniqueNames(before)
    ensures Indexed(Existing(before, rows), before)
  {
    ExistingHasAll(before, rows);
    hide Key;
  }

  predicate Named(items: seq<Entry>, n: nat, key: string)
    requires n <= |items|
  {
    exists k :: 0 <= k < n && Key(items[k]) == key
  }

  /** One of the first n entries of the file is stored under the id. */
  predicate IsTarget(existing: map<string, Id>, items: seq<Entry>, newIDs: seq<Id>, n: nat, id: Id)
    requires n <= |items| == |newIDs|
  {
    exists k :: 0 <= k < n && Target(existing, items[k], newIDs[k]) == id
  }

  ghost predicate StoresFile(after: map<Id, Entry>, existing: map<string, Id>, items: seq<Entry>, newIDs: seq<Id>,
                             n: nat)
    requires n <= |items| == |newIDs|
  {
    forall k :: 0 <= k < n ==>
      var id := Target(existing, items[k], newIDs[k]); id in after && after[id] == items[k]
  }

  ghost predicate KeepsOthers(after: map<Id, Entry>, before: map<Id, Entry>, items: seq<Entry>, n: nat)
    requires n <= |items|
  {
    forall id :: id in before && !Named(items, n, Key(before[id])) ==> id in after && after[id] == before[id]
  }

  ghost predicate AddsNothingElse(after: map<Id, Entry>, before: map<Id, Entry>, existing: map<string, Id>,
                                  items: seq<Entry>, newIDs: seq<Id>, n: nat)
    requires n <= |items| == |newIDs|
  {
    forall id :: id in after ==>
      (id in before && !Named(items, n, Key(before[id]))) || IsTarget(existing, items, newIDs, n, id)
  }

  /** The first n entries of the file are stored as written, and nothing else has changed. */
  ghost predicate Written(after: map<Id, Entry>, before: map<Id, Entry>, existing: map<string, Id>, items: seq<Entry>,
                          newIDs: seq<Id>, n: nat)
    requires n <= |items| == |newIDs|
  {
    StoresFile(after, existing, items, newIDs, n) && KeepsOthers(after, before, items, n)
        && AddsNothingElse(after, before, existing, items, newIDs, n)
  }

  lemma TargetsDiffer(before: map<Id, Entry>, existing: map<string, Id>, items: seq<Entry>, newIDs: seq<Id>, i: nat,
                      j: nat)
    requires Indexed(existing, before) && UniqueItems(items) && |newIDs| == |items| && NewIDs(newIDs, before)
        && i < j < |items|
    ensures Target(existing, items[i], newIDs[i]) != Target(existing, items[j], newIDs[j])
  {
    hide Key;
  }

  /** A write that is not refused stores the entry under its target. */
  lemma WriteStores(now: Outcome, before: map<Id, Entry>, existing: map<string, Id>, item: Entry, newID: Id,
                    refused: set<string>)
    requires Indexed(existing, before)
    requires Key(item) in existing ==>
               var id := existing[Key(item)]; id in now.entries && now.entries[id] == before[id]
    requires NoConflicts(WriteEntry(now, before, existing, item, newID, refused, false).items)
    ensures WriteEntry(now, before, existing, item, newID, refused, false).entries
        == now.entries[Target(existing, item, newID) := item]
  {
    var after := WriteEntry(now, before, existing, item, newID, refused, false);
    assert after.items[|after.items| - 1].action != ActionConflict;
    hide Key;
  }

  lemma NamedNext(items: seq<Entry>, n: nat, key: string)
    requires n < |items|
    ensures Named(items, n + 1, key) <==> Named(items, n, key) || Key(items[n]) == key
  {
    hide Key;
  }

  lemma TargetHasTheKey(before: map<Id, Entry>, existing: map<string, Id>, item: Entry, newID: Id, id: Id)
    requires Indexed(existing, before) && newID !in before && id in before
    ensures id == Target(existing, item, newID) <==> Key(before[id]) == Key(item)
  {
    hide Key;
  }

  lemma StoresOneMore(before: map<Id, Entry>, existing: map<string, Id>, items: seq<Entry>, newIDs: seq<Id>, n: nat,
                      now: map<Id, Entry>)
    requires Indexed(existing, before) && UniqueItems(items) && n < |items| == |newIDs| && NewIDs(newIDs, before)
    requires StoresFile(now, existing, items, newIDs, n)
    ensures StoresFile(now[Target(existing, items[n], newIDs[n]) := items[n]], existing, items, newIDs, n + 1)
  {
    hide Target, Indexed, UniqueItems, NewIDs;
    forall k | 0 <= k < n ensures Target(existing, items[k], newIDs[k]) != Target(existing, items[n], newIDs[n]) {
      TargetsDiffer(before, existing, items, newIDs, k, n);
    }
  }

  lemma OthersStay(before: map<Id, Entry>, existing: map<string, Id>, items: seq<Entry>, newIDs: seq<Id>, n: nat,
                   now: map<Id, Entry>)
    requires Indexed(existing, before) && n < |items| == |newIDs| && newIDs[n] !in before
    requires KeepsOthers(now, before, items, n) && AddsNothingElse(now, before, existing, items, newIDs, n)
    ensures var after := now[Target(existing, items[n], newIDs[n]) := items[n]];
            KeepsOthers(after, before, items, n + 1) && AddsNothingElse(after, before, existing, items, newIDs, n + 1)
  {
    hide Key, Named, Target, Indexed, IsTarget;
    var target := Target(existing, items[n], newIDs[n]);
    forall id
      ensures id in before ==>
            (Named(items, n + 1, Key(before[id])) <==> Named(items, n, Key(before[id])) || id == target)
      ensures IsTarget(existing, items, newIDs, n + 1, id) <==> IsTarget(existing, items, newIDs, n, id) || id == target
    {
      TargetNext(existing, items, newIDs, n, id);
      if id in before {
        NamedNext(items, n, Key(before[id]));
        TargetHasTheKey(before, existing, items[n], newIDs[n], id);
      }
    }
  }

  /** Writing one more entry. */
  lemma WritesOneMore(before: map<Id, Entry>, existing: map<string, Id>, items: seq<Entry>, newIDs: seq<Id>, n: nat,
                      now: map<Id, Entry>)
    requires Indexed(existing, before) && UniqueItems(items) && n < |items| == |newIDs| && NewIDs(newIDs, before)
    requires Written(now, before, existing, items, newIDs, n)
    ensures Written(now[Target(existing, items[n], newIDs[n]) := items[n]], before, existing, items, newIDs, n + 1)
  {
    hide StoresFile, KeepsOthers, AddsNothingElse;
    StoresOneMore(before, existing, items, newIDs, n, now);
    OthersStay(before, existing, items, newIDs, n, now);
  }

  lemma TargetNext(existing: map<string, Id>, items: seq<Entry>, newIDs: seq<Id>, n: nat, id: Id)
    requires n < |items| == |newIDs|
    ensures IsTarget(existing, items, newIDs, n + 1, id) <==>
              IsTarget(existing, items, newIDs, n, id) || id == Target(existing, items[n], newIDs[n])
  {
    hide Target;
  }

  lemma {:induction false} WriteAllWrites(before: map<Id, Entry>, existing: map<string, Id>, items: seq<Entry>,
                                        newIDs: seq<Id>, n: nat, refused: set<string>)
    requires Indexed(existing, before) && UniqueItems(items) && n <= |items| == |newIDs| && NewIDs(newIDs, before)
    requires NoConflicts(WriteAll(Outcome(before, []), before, existing, items[..n], newIDs[..n], refused, false).items)
    ensures Written(WriteAll(Outcome(before, []), before, existing, items[..n], newIDs[..n], refused, false).entries,
        before, existing, items, newIDs, n)
  {
    if n > 0 {
      var now := WriteAll(Outcome(before, []), before, existing, items[..n - 1], newIDs[..n - 1], refused, false);
      assert items[..n][..n - 1] == items[..n - 1] && newIDs[..n][..n - 1] == newIDs[..n - 1];
      hide Key, WriteEntry;
      WriteKeepsItems(now, before, existing, items[n - 1], newIDs[n - 1], refused, false);
      WriteAllWrites(before, existing, items, newIDs, n - 1, refused);
      StillAsBefore(before, existing, items, newIDs, n - 1, now.entries);
      WriteStores(now, before, existing, items[n - 1], newIDs[n - 1], refused);
      WritesOneMore(before, existing, items, newIDs, n - 1, now.entries);
    }
  }

  lemma StillAsBefore(before: map<Id, Entry>, existing: map<string, Id>, items: seq<Entry>, newIDs: seq<Id>, n: nat,
                      now: map<Id, Entry>)
    requires Indexed(existing, before) && UniqueItems(items) && n < |items| == |newIDs|
        && Written(now, before, existing, items, newIDs, n)
    ensures Key(items[n]) in existing ==>
              var id := existing[Key(items[n])]; id in now && now[id] == before[id]
  {
    assert !Named(items, n, Key(items[n]));
    hide Key;
  }

  lemma WriteKeepsItems(now: Outcome, before: map<Id, Entry>, existing: map<string, Id>, item: Entry, newID: Id,
                        refused: set<string>, insert: bool)
    requires forall k :: k in existing ==> existing[k] in before
    ensures var after := WriteEntry(now, before, existing, item, newID, refused, insert);
            NoConflicts(after.items) ==> NoConflicts(now.items)
  {
    var after := WriteEntry(now, before, existing, item, newID, refused, insert);
    assert |after.items| == |now.items| + 1 && after.items[..|now.items|] == now.items;
    hide WriteEntry;
    forall i | 0 <= i < |now.items| ensures after.items[i] == now.items[i] {
      assert after.items[..|now.items|][i] == now.items[i];
    }
  }

  /* ---------- Removing what the file does not have ---------- */

  /** What the removal makes of an entry of the listing. */
  predicate Removed(after: map<Id, Entry>, now: map<Id, Entry>, before: map<Id, Entry>, id: Id, policy: Policy,
                    used: set<Id>)
    requires id in before
  {
    match Leave(policy, before[id], id in used)
    case Keeps => id in after && id in now && after[id] == now[id]
    case Deletes => id !in after
    case Deactivates => id in after && after[id] == before[id].(active := false)
  }

  predicate Listed(rows: seq<Id>, n: nat, id: Id)
    requires n <= |rows|
  {
    exists k :: 0 <= k < n && rows[k] == id
  }

  lemma ListedNext(rows: seq<Id>, n: nat, id: Id)
    requires n < |rows|
    ensures Listed(rows, n + 1, id) <==> Listed(rows, n, id) || rows[n] == id
  {
  }

  predicate Leaves(before: map<Id, Entry>, rows: seq<Id>, n: nat, inFile: set<string>, id: Id)
    requires n <= |rows|
  {
    id in before && Listed(rows, n, id) && Key(before[id]) !in inFile
  }

  /** The first n rows have been dealt with: those missing from the file have left, the others are as they were. */
  ghost predicate Pruned(after: map<Id, Entry>, now: map<Id, Entry>, before: map<Id, Entry>, rows: seq<Id>, n: nat,
                         inFile: set<string>, policy: Policy, used: set<Id>)
    requires n <= |rows|
  {
    forall id ::
      if Leaves(before, rows, n, inFile, id) then Removed(after, now, before, id, policy, used)
      else (id in after <==> id in now) && (id in now ==> after[id] == now[id])
  }

  lemma PruneStores(now: Outcome, before: map<Id, Entry>, id: Id, policy: Policy, used: set<Id>, refused: set<string>)
    requires id in before && id in now.entries && NoConflicts(PruneEntry(now, before, id, policy, used, refused).items)
    ensures Removed(PruneEntry(now, before, id, policy, used, refused).entries, now.entries, before, id, policy, used)
  {
    var after := PruneEntry(now, before, id, policy, used, refused);
    assert after.items[|now.items|].action != ActionConflict;
  }

  lemma PruneLeavesOthers(now: Outcome, before: map<Id, Entry>, id: Id, policy: Policy, used: set<Id>,
                          refused: set<string>, other: Id)
    requires id in before && other != id
    ensures var after := PruneEntry(now, before, id, policy, used, refused).entries;
            (other in after <==> other in now.entries) && (other in now.entries ==> after[other] == now.entries[other])
  {
  }

  lemma {:induction false} PruneAllPrunes(now: Outcome, before: map<Id, Entry>, rows: seq<Id>, n: nat,
                                        inFile: set<string>, policy: Policy, used: set<Id>, refused: set<string>)
    requires Listing(rows, before) && n <= |rows|
    requires forall id ::
          id in before && Key(before[id]) !in inFile ==> id in now.entries && now.entries[id] == before[id]
    requires NoConflicts(PruneAll(now, before, rows[..n], inFile, policy, used, refused).items)
    ensures Pruned(PruneAll(now, before, rows[..n], inFile, policy, used, refused).entries, now.entries, before, rows,
        n, inFile, policy, used)
    ensures NoConflicts(now.items)
  {
    if n > 0 {
      assert rows[..n][..n - 1] == rows[..n - 1];
      var id, earlier := rows[n - 1], PruneAll(now, before, rows[..n - 1], inFile, policy, used, refused);
      assert !Listed(rows, n - 1, id);
      hide Key, PruneEntry, Removed, Listed;
      if Key(before[id]) in inFile {
        PruneAllPrunes(now, before, rows, n - 1, inFile, policy, used, refused);
        PrunesNoMore(earlier.entries, now.entries, before, rows, n, inFile, policy, used);
      } else {
        var after := PruneEntry(earlier, before, id, policy, used, refused);
        PruneKeepsItems(earlier, before, id, policy, used, refused);
        PruneAllPrunes(now, before, rows, n - 1, inFile, policy, used, refused);
        assert !Leaves(before, rows, n - 1, inFile, id);
        hide NoConflicts, Leaves;
        PruneStores(earlier, before, id, policy, used, refused);
        forall other | other != id
          ensures (other in after.entries <==> other in earlier.entries)
              && (other in earlier.entries ==> after.entries[other] == earlier.entries[other])
        {
          PruneLeavesOthers(earlier, before, id, policy, used, refused, other);
        }
        PrunesOneMore(after.entries, earlier.entries, now.entries, before, rows, n, inFile, policy, used);
      }
    }
  }

  lemma PrunesNoMore(after: map<Id, Entry>, now: map<Id, Entry>, before: map<Id, Entry>, rows: seq<Id>, n: nat,
                     inFile: set<string>, policy: Policy, used: set<Id>)
    requires 0 < n <= |rows| && rows[n - 1] in before && Key(before[rows[n - 1]]) in inFile
    requires Pruned(after, now, before, rows, n - 1, inFile, policy, used)
    ensures Pruned(after, now, before, rows, n, inFile, policy, used)
  {
    forall id ensures Listed(rows, n, id) <==> Listed(rows, n - 1, id) || rows[n - 1] == id {
      ListedNext(rows, n - 1, id);
    }
    hide Key, Listed, Removed;
  }

  lemma PruneKeepsItems(now: Outcome, before: map<Id, Entry>, id: Id, policy: Policy, used: set<Id>,
                        refused: set<string>)
    requires id in before
    ensures NoConflicts(PruneEntry(now, before, id, policy, used, refused).items) ==> NoConflicts(now.items)
  {
    var after := PruneEntry(now, before, id, policy, used, refused);
    assert |after.items| == |now.items| + 1 && after.items[..|now.items|] == now.items;
    hide PruneEntry;
    assert forall i :: 0 <= i < |now.items| ==> after.items[..|now.items|][i] == after.items[i];
  }

  lemma PrunesOneMore(after: map<Id, Entry>, earlier: map<Id, Entry>, now: map<Id, Entry>, before: map<Id, Entry>,
                      rows: seq<Id>, n: nat, inFile: set<string>, policy: Policy, used: set<Id>)
    requires 0 < n <= |rows| && rows[n - 1] in before && !Listed(rows, n - 1, rows[n - 1])
        && Key(before[rows[n - 1]]) !in inFile
    requires Pruned(earlier, now, before, rows, n - 1, inFile, policy, used)
    requires Removed(after, earlier, before, rows[n - 1], policy, used)
    requires forall other :: other != rows[n - 1] ==>
               (other in after <==> other in earlier) && (other in earlier ==> after[other] == earlier[other])
    ensures Pruned(after, now, before, rows, n, inFile, policy, used)
  {
    hide Key, Listed, Leave;
    forall id
      ensures if Leaves(before, rows, n, inFile, id) then Removed(after, now, before, id, policy, used)
              else (id in after <==> id in now) && (id in now ==> after[id] == now[id])
    {
      ListedNext(rows, n - 1, id);
    }
  }

  /* ---------- Main results ---------- */

  /** Both passes of an overwrite. */
  function Overwrite(before: map<Id, Entry>, rows: seq<Id>, items: seq<Entry>, newIDs: seq<Id>, policy: Policy,
                     used: set<Id>, refused: set<string>): Outcome
    requires |newIDs| == |items| && forall i :: 0 <= i < |rows| ==> rows[i] in before
  {
    PruneAll(WriteAll(Outcome(before, []), before, Existing(before, rows), items, newIDs, refused, false), before, rows,
        Keys(items), policy, used, refused)
  }

  ghost predicate StoredAs(entries: map<Id, Entry>, item: Entry) { exists id :: id in entries && entries[id] == item }

  /** An entry that the file does not have, kept for the reason its policy states. */
  predicate KeptForAReason(after: Entry, before: Entry, policy: Policy, used: bool) {
    && Leave(policy, after, used) == Keeps && after.name == before.name && after.body == before.body
    && (after.active == before.active || !after.active)
  }

  ghost predicate Converged(after: map<Id, Entry>, before: map<Id, Entry>, items: seq<Entry>, policy: Policy,
                            used: set<Id>) {
    && (forall k :: 0 <= k < |items| ==> StoredAs(after, items[k]))
    && (forall id :: id in after ==>
          if Key(after[id]) in Keys(items) then after[id] in items
          else id in before && KeptForAReason(after[id], before[id], policy, id in used))
  }

  lemma NamedIsInFile(items: seq<Entry>, key: string)
    ensures Named(items, |items|, key) <==> key in Keys(items)
  {
    hide Key;
  }

  lemma {:induction false} ListedAll(rows: seq<Id>, before: map<Id, Entry>, id: Id)
    requires Listing(rows, before)
    ensures Listed(rows, |rows|, id) <==> id in before
  {
    if id in before {
      assert id in rows;
    }
  }

  /** What the two passes leave under one id. */
  lemma AfterBothPasses(after: map<Id, Entry>, now: map<Id, Entry>, before: map<Id, Entry>, rows: seq<Id>,
                        existing: map<string, Id>,
                        items: seq<Entry>, newIDs: seq<Id>, policy: Policy, used: set<Id>, id: Id)
    requires Listing(rows, before) && Indexed(existing, before) && |newIDs| == |items| && NewIDs(newIDs, before)
    requires Written(now, before, existing, items, newIDs, |items|)
    requires Pruned(after, now, before, rows, |rows|, Keys(items), policy, used)
    ensures if IsTarget(existing, items, newIDs, |items|, id) then id in now && id in after && after[id] == now[id]
        && after[id] in items
            else id in after ==>
                   && id in before && Key(before[id]) !in Keys(items)
                   && KeptForAReason(after[id], before[id], policy, id in used)
  {
    ListedAll(rows, before, id);
    if id in before {
      NamedIsInFile(items, Key(before[id]));
    }
    hide Named, Listed;
    if IsTarget(existing, items, newIDs, |items|, id) {
      var k :| 0 <= k < |items| && Target(existing, items[k], newIDs[k]) == id;
      if id in before {
        TargetHasTheKey(before, existing, items[k], newIDs[k], id);
      }
      assert Key(items[k]) in Keys(items);
      hide Key, Keys, Target, IsTarget, Indexed;
    }
  }

  lemma TargetKey(now: map<Id, Entry>, existing: map<string, Id>, items: seq<Entry>, newIDs: seq<Id>,
                  before: map<Id, Entry>, i: Id, j: Id)
    requires |newIDs| == |items| && UniqueItems(items) && StoresFile(now, existing, items, newIDs, |items|)
    requires IsTarget(existing, items, newIDs, |items|, i) && IsTarget(existing, items, newIDs, |items|, j)
    requires i in now && j in now && Key(now[i]) == Key(now[j])
    ensures i == j
  {
    hide Key, Target;
  }

  lemma NamesStayUnique(after: map<Id, Entry>, now: map<Id, Entry>, before: map<Id, Entry>, rows: seq<Id>,
                        existing: map<string, Id>,
                        items: seq<Entry>, newIDs: seq<Id>, policy: Policy, used: set<Id>)
    requires Listing(rows, before) && UniqueNames(before) && Indexed(existing, before) && UniqueItems(items)
        && |newIDs| == |items| && NewIDs(newIDs, before)
    requires Written(now, before, existing, items, newIDs, |items|)
    requires Pruned(after, now, before, rows, |rows|, Keys(items), policy, used)
    ensures UniqueNames(after)
  {
    forall i, j | i in after && j in after && Key(after[i]) == Key(after[j]) ensures i == j {
      AfterBothPasses(after, now, before, rows, existing, items, newIDs, policy, used, i);
      AfterBothPasses(after, now, before, rows, existing, items, newIDs, policy, used, j);
      hide Pruned, Indexed, Listing, IsTarget, NewIDs, KeepsOthers, AddsNothingElse, StoresFile;
      if IsTarget(existing, items, newIDs, |items|, i) && IsTarget(existing, items, newIDs, |items|, j) {
        TargetKey(now, existing, items, newIDs, before, i, j);
      }
    }
  }

  lemma PassesDoTheirWork(before: map<Id, Entry>, rows: seq<Id>, items: seq<Entry>, newIDs: seq<Id>, policy: Policy,
                          used: set<Id>, refused: set<string>)
    returns (existing: map<string, Id>, now: map<Id, Entry>)
    requires UniqueNames(before) && Listing(rows, before) && UniqueItems(items) && |newIDs| == |items|
        && NewIDs(newIDs, before)
    requires NoConflicts(Overwrite(before, rows, items, newIDs, policy, used, refused).items)
    ensures Indexed(existing, before) && Written(now, before, existing, items, newIDs, |items|)
    ensures Pruned(Overwrite(before, rows, items, newIDs, policy, used, refused).entries, now, before, rows, |rows|,
        Keys(items), policy, used)
  {
    existing := Existing(before, rows);
    ListedIsIndexed(rows, before);
    assert items[..|items|] == items && newIDs[..|items|] == newIDs && rows[..|rows|] == rows;
    var wrote := WriteAll(Outcome(before, []), before, existing, items, newIDs, refused, false);
    hide Key, WriteAll, PruneAll, Existing, Written, Pruned, Indexed, Listing;
    PruneKeepsConflicts(wrote, before, rows, Keys(items), policy, used, refused);
    WriteAllWrites(before, existing, items, newIDs, |items|, refused);
    now := wrote.entries;
    WrittenLeavesOthers(now, before, existing, items, newIDs);
    PruneAllPrunes(wrote, before, rows, |rows|, Keys(items), policy, used, refused);
  }

  lemma {:induction false} PruneKeepsConflicts(now: Outcome, before: map<Id, Entry>, rows: seq<Id>, inFile: set<string>,
                                        policy: Policy, used: set<Id>, refused: set<string>)
    requires forall i :: 0 <= i < |rows| ==> rows[i] in before
    requires NoConflicts(PruneAll(now, before, rows, inFile, policy, used, refused).items)
    ensures NoConflicts(now.items)
  {
    if rows != [] {
      var last := |rows| - 1;
      var earlier := PruneAll(now, before, rows[..last], inFile, policy, used, refused);
      PruneKeepsItems(earlier, before, rows[last], policy, used, refused);
      hide NoConflicts, PruneEntry, Key;
      PruneKeepsConflicts(now, before, rows[..last], inFile, policy, used, refused);
    }
  }

  lemma WrittenLeavesOthers(now: map<Id, Entry>, before: map<Id, Entry>, existing: map<string, Id>, items: seq<Entry>,
                            newIDs: seq<Id>)
    requires |newIDs| == |items| && Written(now, before, existing, items, newIDs, |items|)
    ensures forall id :: id in before && Key(before[id]) !in Keys(items) ==> id in now && now[id] == before[id]
  {
    forall id | id in before ensures Named(items, |items|, Key(before[id])) <==> Key(before[id]) in Keys(items) {
      NamedIsInFile(items, Key(before[id]));
    }
    hide Key, Keys, Named;
  }

  lemma FileIsStored(after: map<Id, Entry>, now: map<Id, Entry>, before: map<Id, Entry>, rows: seq<Id>,
                     existing: map<string, Id>,
                     items: seq<Entry>, newIDs: seq<Id>, policy: Policy, used: set<Id>, k: nat)
    requires Listing(rows, before) && Indexed(existing, before) && k < |items| == |newIDs| && NewIDs(newIDs, before)
    requires Written(now, before, existing, items, newIDs, |items|)
    requires Pruned(after, now, before, rows, |rows|, Keys(items), policy, used)
    ensures StoredAs(after, items[k])
  {
    var id := Target(existing, items[k], newIDs[k]);
    assert IsTarget(existing, items, newIDs, |items|, id);
    AfterBothPasses(after, now, before, rows, existing, items, newIDs, policy, used, id);
    hide Key, Pruned, Indexed, Listing, IsTarget;
  }

  lemma EntryAfter(after: map<Id, Entry>, now: map<Id, Entry>, before: map<Id, Entry>, rows: seq<Id>,
                   existing: map<string, Id>,
                   items: seq<Entry>, newIDs: seq<Id>, policy: Policy, used: set<Id>, id: Id)
    requires Listing(rows, before) && Indexed(existing, before) && |newIDs| == |items| && NewIDs(newIDs, before)
        && id in after
    requires Written(now, before, existing, items, newIDs, |items|)
    requires Pruned(after, now, before, rows, |rows|, Keys(items), policy, used)
    ensures if Key(after[id]) in Keys(items) then after[id] in items
            else id in before && KeptForAReason(after[id], before[id], policy, id in used)
  {
    AfterBothPasses(after, now, before, rows, existing, items, newIDs, policy, used, id);
    hide Pruned, Indexed, Listing, IsTarget, Written, NewIDs, NameKey;
  }

  /** A conflict-free overwrite makes the section what the file says: every entry of the file is stored as written,
      every other entry is gone, inactive or kept because it is used, and names stay unique. */
  lemma OverwriteConverges(before: map<Id, Entry>, rows: seq<Id>, items: seq<Entry>, newIDs: seq<Id>, policy: Policy,
                           used: set<Id>, refused: set<string>,
                           outcome: Outcome)
    requires UniqueNames(before) && Listing(rows, before) && UniqueItems(items) && |newIDs| == |items|
        && NewIDs(newIDs, before)
    requires outcome == Overwrite(before, rows, items, newIDs, policy, used, refused) && NoConflicts(outcome.items)
    ensures Converged(outcome.entries, before, items, policy, used) && UniqueNames(outcome.entries)
  {
    hide Overwrite, Key, Keys, Existing, Pruned, Indexed, Listing, NewIDs, UniqueNames, Written, StoredAs,
        KeptForAReason;
    var after := outcome.entries;
    var existing, now := PassesDoTheirWork(before, rows, items, newIDs, policy, used, refused);
    NamesStayUnique(after, now, before, rows, existing, items, newIDs, policy, used);
    forall k | 0 <= k < |items| ensures StoredAs(after, items[k]) {
      FileIsStored(after, now, before, rows, existing, items, newIDs, policy, used, k);
    }
    forall id | id in after
      ensures if Key(after[id]) in Keys(items) then after[id] in items
              else id in before && KeptForAReason(after[id], before[id], policy, id in used)
    {
      EntryAfter(after, now, before, rows, existing, items, newIDs, policy, used, id);
    }
  }

  /* ---------- A second overwrite ---------- */

  predicate Quiet(items: seq<Item>) {
    forall i :: 0 <= i < |items| ==> items[i].action == ActionSkip || items[i].action == ActionKeep
  }

  /** Entries already stored as the file has them are skipped. */
  lemma {:induction false} WriteAllSkips(before: map<Id, Entry>, existing: map<string, Id>, items: seq<Entry>,
                                        newIDs: seq<Id>, refused: set<string>)
    requires Indexed(existing, before) && UniqueNames(before) && |newIDs| == |items|
    requires forall k :: 0 <= k < |items| ==> StoredAs(before, items[k])
    ensures var after := WriteAll(Outcome(before, []), before, existing, items, newIDs, refused, false);
            after.entries == before && Quiet(after.items)
    decreases |items|
  {
    if items != [] {
      var last := |items| - 1;
      WriteAllSkips(before, existing, items[..last], newIDs[..last], refused);
      assert StoredAs(before, items[last]);
      var id :| id in before && before[id] == items[last];
      assert existing[Key(before[id])] == id;
      hide Key;
    }
  }

  /** The removal is quiet exactly when every row the file does not have is kept. */
  lemma {:induction false} PruneQuietExactlyWhen(now: Outcome, before: map<Id, Entry>, rows: seq<Id>,
                                        inFile: set<string>, policy: Policy, used: set<Id>, refused: set<string>)
    requires (forall i :: 0 <= i < |rows| ==> rows[i] in before) && Quiet(now.items)
    ensures Quiet(PruneAll(now, before, rows, inFile, policy, used, refused).items)
            <==> forall i :: 0 <= i < |rows| && Key(before[rows[i]]) !in inFile ==>
                   Leave(policy, before[rows[i]], rows[i] in used) == Keeps
    ensures Quiet(PruneAll(now, before, rows, inFile, policy, used, refused).items)
        ==> PruneAll(now, before, rows, inFile, policy, used, refused).entries == now.entries
  {
    if rows != [] {
      var last := |rows| - 1;
      var earlier, id := PruneAll(now, before, rows[..last], inFile, policy, used, refused), rows[last];
      PruneQuietExactlyWhen(now, before, rows[..last], inFile, policy, used, refused);
      assert forall i :: 0 <= i < |rows| ==> rows[i] == if i < last then rows[..last][i] else id;
      QuietEntry(earlier, before, id, policy, used, refused);
      hide Key, Leave, PruneEntry, Quiet;
    }
  }

  lemma QuietEntry(now: Outcome, before: map<Id, Entry>, id: Id, policy: Policy, used: set<Id>, refused: set<string>)
    requires id in before
    ensures var after := PruneEntry(now, before, id, policy, used, refused);
            && (Quiet(after.items) <==> Quiet(now.items) && Leave(policy, before[id], id in used) == Keeps)
            && (Quiet(after.items) ==> after.entries == now.entries)
  {
    var after := PruneEntry(now, before, id, policy, used, refused);
    assert |after.items| == |now.items| + 1 && after.items[..|now.items|] == now.items;
    assert forall i :: 0 <= i < |now.items| ==> after.items[..|now.items|][i] == after.items[i];
    assert after.items[|now.items|].action == ActionKeep <==> Leave(policy, before[id], id in used) == Keeps;
  }

  /** A second overwrite with the same file reports only skipped and kept entries, and changes nothing, exactly when
      every entry it kept the first time still has its reason to stay. */
  lemma SecondOverwriteIsQuiet(before: map<Id, Entry>, stored: map<Id, Entry>, rows: seq<Id>, items: seq<Entry>,
                               newIDs: seq<Id>,
                               policy: Policy, used: set<Id>, usedNow: set<Id>, refused: set<string>)
    requires Converged(stored, before, items, policy, used) && UniqueNames(stored) && Listing(rows, stored)
        && |newIDs| == |items|
    ensures var second := Overwrite(stored, rows, items, newIDs, policy, usedNow, refused);
            && (Quiet(second.items) <==>
                  forall id :: id in stored && Key(stored[id]) !in Keys(items) ==>
                    Leave(policy, stored[id], id in usedNow) == Keeps)
            && (Quiet(second.items) ==> second.entries == stored)
            && (usedNow == used ==> Quiet(second.items))
  {
    var existing := Existing(stored, rows);
    ListedIsIndexed(rows, stored);
    var wrote := WriteAll(Outcome(stored, []), stored, existing, items, newIDs, refused, false);
    hide Key, Existing, WriteAll, PruneAll, Indexed;
    WriteAllSkips(stored, existing, items, newIDs, refused);
    PruneQuietExactlyWhen(wrote, stored, rows, Keys(items), policy, usedNow, refused);
    hide Leave, Quiet, UniqueNames, StoredAs;
    assert (forall i :: 0 <= i < |rows| && Key(stored[rows[i]]) !in Keys(items) ==>
              Leave(policy, stored[rows[i]], rows[i] in usedNow) == Keeps)
        <==> (forall id :: id in stored && Key(stored[id]) !in Keys(items) ==>
                Leave(policy, stored[id], id in usedNow) == Keeps);
  }

  lemma PrunesOne(before: map<Id, Entry>, policy: Policy, used: set<Id>)
    requires 0 in before
    ensures Overwrite(before, [0], [], [], policy, used, {})
            == PruneEntry(Outcome(before, []), before, 0, policy, used, {})
  {
    hide NameKey;
    var start := Outcome(before, []);
    assert WriteAll(start, before, Existing(before, [0]), [], [], {}, false) == start;
    assert PruneAll(start, before, [], Keys([]), policy, used, {}) == start && [0][..0] == [];
  }

  /** A competency that is used keeps being listed inactive; when nothing uses it any more, the second overwrite deletes
      it instead. */
  lemma SecondOverwriteCanDelete()
    ensures var before, kept := map[0 := Entry("Laser", "", true)], map[0 := Entry("Laser", "", false)];
            var first := Overwrite(before, [0], [], [], Competencies, {0}, {});
            var second := Overwrite(kept, [0], [], [], Competencies, {}, {});
            && first.entries == kept && NoConflicts(first.items)
            && second == Outcome(map[], [Item("Laser", ActionDelete, "")]) && !Quiet(second.items)
  {
    hide Overwrite, NameKey;
    var before, kept := map[0 := Entry("Laser", "", true)], map[0 := Entry("Laser", "", false)];
    PrunesOne(before, Competencies, {0});
    PrunesOne(kept, Competencies, {});
    assert before[0 := Entry("Laser", "", false)] == kept;
    assert kept - {0} == map[];
    var items := Overwrite(kept, [0], [], [], Competencies, {}, {}).items;
    assert items == [Item("Laser", ActionDelete, "")];
    assert items[0].action == ActionDelete;
  }

  /* ---------- Insert mode ---------- */

  /** An entry of the file whose name was free. */
  predicate Added(e: Entry, before: map<Id, Entry>, items: seq<Entry>)
  {
    e in items && forall id :: id in before ==> Key(before[id]) != Key(e)
  }

  ghost predicate Inserted(after: map<Id, Entry>, before: map<Id, Entry>, items: seq<Entry>) {
    && (forall id :: id in before ==> id in after && after[id] == before[id])
    && (forall id :: id in after && id !in before ==> Added(after[id], before, items))
  }

  lemma AddedStays(before: map<Id, Entry>, items: seq<Entry>, n: nat)
    requires n <= |items|
    ensures forall e :: Added(e, before, items[..n]) ==> Added(e, before, items)
  {
    hide Key;
  }

  lemma InsertedStays(now: map<Id, Entry>, before: map<Id, Entry>, items: seq<Entry>, n: nat)
    requires n <= |items| && Inserted(now, before, items[..n])
    ensures Inserted(now, before, items)
  {
    hide Added;
    AddedStays(before, items, n);
  }

  lemma InsertedGrows(now: map<Id, Entry>, before: map<Id, Entry>, items: seq<Entry>, newID: Id, item: Entry)
    requires Inserted(now, before, items) && newID !in before && Added(item, before, items)
    ensures Inserted(now[newID := item], before, items)
  {
    hide Added;
  }

  lemma InsertsOneMore(now: Outcome, before: map<Id, Entry>, existing: map<string, Id>, items: seq<Entry>, newID: Id,
                       refused: set<string>)
    requires items != [] && newID !in before && (forall k :: k in existing ==> existing[k] in before)
    requires (forall id :: id in before ==> Key(before[id]) in existing)
        && Inserted(now.entries, before, items[..|items| - 1])
    ensures Inserted(WriteEntry(now, before, existing, items[|items| - 1], newID, refused, true).entries, before, items)
  {
    hide Key, Added, Attempted, Inserted;
    var item := items[|items| - 1];
    InsertedStays(now.entries, before, items, |items| - 1);
    if Key(item) !in existing {
      NewNameIsAdded(before, existing, items);
      InsertedGrows(now.entries, before, items, newID, item);
      AttemptedStores(now, item.name, refused, ActionCreate, now.entries[newID := item]);
    }
  }

  lemma NewNameIsAdded(before: map<Id, Entry>, existing: map<string, Id>, items: seq<Entry>)
    requires items != [] && Key(items[|items| - 1]) !in existing
    requires forall id :: id in before ==> Key(before[id]) in existing
    ensures Added(items[|items| - 1], before, items)
  {
    hide Key;
  }

  lemma AttemptedStores(now: Outcome, name: string, refused: set<string>, action: Action, written: map<Id, Entry>)
    ensures Attempted(now, name, refused, action, written).entries == if name in refused then now.entries else written
  {
  }

  /** Inserting changes no stored entry, whatever is refused; it adds entries of the file whose names were free. */
  lemma {:induction false} InsertKeepsWhatIsStored(before: map<Id, Entry>, rows: seq<Id>, items: seq<Entry>,
                                        newIDs: seq<Id>, refused: set<string>)
    requires Listing(rows, before) && |newIDs| == |items| && NewIDs(newIDs, before)
    ensures Inserted(WriteAll(Outcome(before, []), before, Existing(before, rows), items, newIDs, refused,
        true).entries, before, items)
    decreases |items|
  {
    if items != [] {
      var last, existing := |items| - 1, Existing(before, rows);
      ExistingHasAll(before, rows);
      hide Key, Existing, WriteEntry, Inserted;
      InsertKeepsWhatIsStored(before, rows, items[..last], newIDs[..last], refused);
      InsertsOneMore(WriteAll(Outcome(before, []), before, existing, items[..last], newIDs[..last], refused, true),
          before, existing, items, newIDs[last], refused);
    }
  }

  /* ---------- Names at every moment ---------- */

  /** Entries keep their keys, and each new one has the key of the entry of the file it was created for. */
  ghost predicate KeyedAs(now: map<Id, Entry>, before: map<Id, Entry>, existing: map<string, Id>, items: seq<Entry>,
                          newIDs: seq<Id>)
    requires |newIDs| == |items|
  {
    forall id :: id in now ==>
      || (id in before && Key(now[id]) == Key(before[id]))
      || exists k :: 0 <= k < |items| && NewEntry(now[id], id, existing, items[k], newIDs[k])
  }

  predicate NewEntry(e: Entry, id: Id, existing: map<string, Id>, item: Entry, newID: Id) {
    id == newID && Key(e) == Key(item) && Key(item) !in existing
  }

  lemma KeyedIsUnique(now: map<Id, Entry>, before: map<Id, Entry>, existing: map<string, Id>, items: seq<Entry>,
                      newIDs: seq<Id>)
    requires Indexed(existing, before) && UniqueNames(before) && UniqueItems(items) && |newIDs| == |items|
        && KeyedAs(now, before, existing, items, newIDs)
    ensures UniqueNames(now)
  {
    hide Key;
  }

  lemma WriteKeepsKeys(now: Outcome, before: map<Id, Entry>, existing: map<string, Id>, items: seq<Entry>,
                       newIDs: seq<Id>, k: nat, refused: set<string>, insert: bool)
    requires Indexed(existing, before) && k < |items| == |newIDs|
        && KeyedAs(now.entries, before, existing, items, newIDs)
    ensures KeyedAs(WriteEntry(now, before, existing, items[k], newIDs[k], refused, insert).entries, before, existing,
        items, newIDs)
  {
    hide Key;
    if Key(items[k]) !in existing {
      assert NewEntry(items[k], newIDs[k], existing, items[k], newIDs[k]);
    }
  }

  lemma PruneKeepsKeys(now: Outcome, before: map<Id, Entry>, existing: map<string, Id>, items: seq<Entry>,
                       newIDs: seq<Id>, id: Id, policy: Policy, used: set<Id>, refused: set<string>)
    requires id in before && |newIDs| == |items| && KeyedAs(now.entries, before, existing, items, newIDs)
    ensures KeyedAs(PruneEntry(now, before, id, policy, used, refused).entries, before, existing, items, newIDs)
  {
    assert Key(before[id].(active := false)) == Key(before[id]);
    hide Key, NewEntry, Leave;
  }

  lemma {:induction false} WritesKeepKeys(before: map<Id, Entry>, existing: map<string, Id>, items: seq<Entry>,
                                        newIDs: seq<Id>, refused: set<string>, insert: bool, n: nat)
    requires Indexed(existing, before) && n <= |items| == |newIDs|
    ensures var now := WriteAll(Outcome(before, []), before, existing, items[..n], newIDs[..n], refused, insert);
            KeyedAs(now.entries, before, existing, items, newIDs)
  {
    hide Key, WriteEntry, KeyedAs;
    if n > 0 {
      assert items[..n][..n - 1] == items[..n - 1] && newIDs[..n][..n - 1] == newIDs[..n - 1];
      WritesKeepKeys(before, existing, items, newIDs, refused, insert, n - 1);
      WriteKeepsKeys(WriteAll(Outcome(before, []), before, existing, items[..n - 1], newIDs[..n - 1], refused, insert),
          before, existing, items, newIDs, n - 1, refused, insert);
    } else {
      Unchanged(before, existing, items, newIDs);
    }
  }

  lemma Unchanged(before: map<Id, Entry>, existing: map<string, Id>, items: seq<Entry>, newIDs: seq<Id>)
    requires |newIDs| == |items|
    ensures KeyedAs(before, before, existing, items, newIDs)
  {
  }

  lemma {:induction false} RemovalsKeepKeys(now: Outcome, before: map<Id, Entry>, existing: map<string, Id>,
                                        items: seq<Entry>, newIDs: seq<Id>, rows: seq<Id>, inFile: set<string>,
                                        policy: Policy, used: set<Id>, refused: set<string>)
    requires (forall i :: 0 <= i < |rows| ==> rows[i] in before) && |newIDs| == |items|
        && KeyedAs(now.entries, before, existing, items, newIDs)
    ensures var after := PruneAll(now, before, rows, inFile, policy, used, refused);
            KeyedAs(after.entries, before, existing, items, newIDs)
  {
    hide Key, PruneEntry, KeyedAs;
    if rows != [] {
      var last := |rows| - 1;
      RemovalsKeepKeys(now, before, existing, items, newIDs, rows[..last], inFile, policy, used, refused);
      PruneKeepsKeys(PruneAll(now, before, rows[..last], inFile, policy, used, refused), before, existing, items,
          newIDs, rows[last], policy, used, refused);
    }
  }

  /** Names are unique after every single write and every single removal, in both modes and whatever is refused. */
  lemma NamesAreUniqueThroughout(before: map<Id, Entry>, rows: seq<Id>, items: seq<Entry>, newIDs: seq<Id>,
                                 insert: bool, policy: Policy, used: set<Id>, refused: set<string>, n: nat, m: nat)
    requires UniqueNames(before) && Listing(rows, before) && UniqueItems(items) && n <= |items| == |newIDs|
        && m <= |rows|
    ensures var start, existing := Outcome(before, []), Existing(before, rows);
            UniqueNames(WriteAll(start, before, existing, items[..n], newIDs[..n], refused, insert).entries)
    ensures var start, existing := Outcome(before, []), Existing(before, rows);
            var wrote := WriteAll(start, before, existing, items, newIDs, refused, insert);
            UniqueNames(PruneAll(wrote, before, rows[..m], Keys(items), policy, used, refused).entries)
  {
    hide Key, WriteAll, PruneAll, Existing, Indexed, UniqueNames, KeyedAs;
    var start, existing := Outcome(before, []), Existing(before, rows);
    ListedIsIndexed(rows, before);
    WritesKeepKeys(before, existing, items, newIDs, refused, insert, n);
    KeyedIsUnique(WriteAll(start, before, existing, items[..n], newIDs[..n], refused, insert).entries, before,
        existing, items, newIDs);
    WritesKeepKeys(before, existing, items, newIDs, refused, insert, |items|);
    assert items[..|items|] == items && newIDs[..|items|] == newIDs;
    var wrote := WriteAll(start, before, existing, items, newIDs, refused, insert);
    RemovalsKeepKeys(wrote, before, existing, items, newIDs, rows[..m], Keys(items), policy, used, refused);
    KeyedIsUnique(PruneAll(wrote, before, rows[..m], Keys(items), policy, used, refused).entries, before, existing,
        items, newIDs);
  }
}
