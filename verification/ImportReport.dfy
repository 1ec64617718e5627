/** The report of one imported section: its items in order, and their counts by action. */
module ImportReport {
  datatype Action =
    | ActionCreate | ActionUpdate | ActionDelete | ActionDeactivate | ActionKeep | ActionSkip | ActionConflict

  datatype Item = Item(name: string, action: Action, code: string)

  datatype Counts = Counts(created: nat, updated: nat, deleted: nat, deactivated: nat, kept: nat, skipped: nat,
      conflicts: nat)

  function Tally(items: seq<Item>, action: Action): nat {
    if items == [] then 0 else Tally(items[..|items| - 1], action) + (if items[|items| - 1].action == action then 1
        else 0)
  }

  /** The counts are the numbers of items by action. */
  predicate Exact(counts: Counts, items: seq<Item>) {
    && counts.created == Tally(items, ActionCreate) && counts.updated == Tally(items, ActionUpdate)
    && counts.deleted == Tally(items, ActionDelete) && counts.deactivated == Tally(items, ActionDeactivate)
    && counts.kept == Tally(items, ActionKeep) && counts.skipped == Tally(items, ActionSkip)
    && counts.conflicts == Tally(items, ActionConflict)
  }

  lemma {:induction false} NoneTallied(items: seq<Item>, action: Action)
    ensures Tally(items, action) == 0 <==> forall i :: 0 <= i < |items| ==> items[i].action != action
  {
    if items != [] {
      NoneTallied(items[..|items| - 1], action);
    }
  }

  lemma TalliesGrow(items: seq<Item>, item: Item)
    ensures forall a :: Tally(items + [item], a) == Tally(items, a) + (if item.action == a then 1 else 0)
  {
    assert (items + [item])[..|items|] == items;
  }

  class SectionReport {
    var items: seq<Item>
    var counts: Counts

    predicate Valid()
      reads this
    {
      Exact(counts, items)
    }

    constructor ()
      ensures Valid() && items == []
    {
      items, counts := [], Counts(0, 0, 0, 0, 0, 0, 0);
    }

    method Add(item: Item)
      requires Valid()
      modifies this
      ensures Valid() && items == old(items) + [item]
    {
      TalliesGrow(items, item);
      hide Tally;
      items := items + [item];
      match item.action
      case ActionCreate => counts := counts.(created := counts.created + 1);
      case ActionUpdate => counts := counts.(updated := counts.updated + 1);
      case ActionDelete => counts := counts.(deleted := counts.deleted + 1);
      case ActionDeactivate => counts := counts.(deactivated := counts.deactivated + 1);
      case ActionKeep => counts := counts.(kept := counts.kept + 1);
      case ActionSkip => counts := counts.(skipped := counts.skipped + 1);
      case ActionConflict => counts := counts.(conflicts := counts.conflicts + 1);
    }

    /** Takes back the conflict recorded last, when it is the expected refusal of that entry. */
    method RetractInUseConflict(name: string, code: string) returns (retracted: bool)
      requires Valid()
      modifies this
      ensures Valid()
      ensures retracted <==> old(|items| > 0 && items[|items| - 1] == Item(name, ActionConflict, code))
      ensures items == if retracted then old(items[..|items| - 1]) else old(items)
    {
      if |items| == 0 {
        return false;
      }
      var last := |items| - 1;
      var item := items[last];
      if item.name != name || item.action != ActionConflict || item.code != code {
        return false;
      }
      items := items[..last];
      counts := counts.(conflicts := counts.conflicts - 1);
      retracted := true;
    }
  }
}
