/** Mapping a printer setup from the file onto the stored one: units and slots keep their identity by name. */
module SetupMatching {
  import opened Options
  import opened Texts

  type Id = nat

  datatype Slot = Slot(id: Id, name: string)

  datatype Unit = Unit(id: Id, name: string, slots: seq<Slot>)

  datatype DesiredUnit = DesiredUnit(name: string, slots: seq<string>)

  datatype SlotInput = SlotInput(name: string, id: Option<Id>)

  datatype UnitInput = UnitInput(name: string, id: Option<Id>, slots: seq<SlotInput>)

  /** Identities with their case-insensitive keys, in stored order. */
  datatype Keyed = Keyed(id: Id, key: string)

  function KeyedSlots(slots: seq<Slot>): seq<Keyed>
  {
    seq(|slots|, i requires 0 <= i < |slots| => Keyed(slots[i].id, NameKey(slots[i].name)))
  }

  function KeyedUnits(units: seq<Unit>): seq<Keyed>
  {
    seq(|units|, i requires 0 <= i < |units| => Keyed(units[i].id, NameKey(units[i].name)))
  }

  function SlotKeys(names: seq<string>): seq<string> { seq(|names|, i requires 0 <= i < |names| => NameKey(names[i])) }

  function UnitKeys(units: seq<DesiredUnit>): seq<string>
  {
    seq(|units|, i requires 0 <= i < |units| => NameKey(units[i].name))
  }

  function StoredKeys(stored: seq<Keyed>): seq<string> { seq(|stored|, i requires 0 <= i < |stored| => stored[i].key) }

  predicate DistinctIds(stored: seq<Keyed>) { forall i, j :: 0 <= i < j < |stored| ==> stored[i].id != stored[j].id }

  /** How often the key occurs among the first n. */
  function Occurrences(keys: seq<string>, n: nat, key: string): nat
    requires n <= |keys|
  {
    if n == 0 then 0 else Occurrences(keys, n - 1, key) + (if keys[n - 1] == key then 1 else 0)
  }

  /** How many earlier entries have the same key. */
  function Rank(keys: seq<string>, i: nat): nat
    requires i < |keys|
  {
    Occurrences(keys, i, keys[i])
  }

  lemma {:induction false} OccurrencesGrow(keys: seq<string>, key: string, i: nat, j: nat)
    requires i <= j <= |keys|
    ensures Occurrences(keys, i, key) <= Occurrences(keys, j, key)
  {
    if i < j {
      OccurrencesGrow(keys, key, i, j - 1);
    }
  }

  /** Of one key, each rank is held once. */
  lemma RankRises(keys: seq<string>, i: nat, k: nat)
    requires i < k < |keys| && keys[i] == keys[k]
    ensures Rank(keys, i) < Rank(keys, k)
  {
    OccurrencesGrow(keys, keys[i], i + 1, k);
  }

  lemma RankBelowCount(keys: seq<string>, i: nat, n: nat)
    requires i < n <= |keys|
    ensures Rank(keys, i) < Occurrences(keys, n, keys[i])
  {
    OccurrencesGrow(keys, keys[i], i + 1, n);
  }

  function Total(stored: seq<Keyed>, key: string): nat { Occurrences(StoredKeys(stored), |stored|, key) }

  function StoredRank(stored: seq<Keyed>, j: nat): nat
    requires j < |stored|
  {
    Rank(StoredKeys(stored), j)
  }

  /** The stored identity an entry gets: the one of the same key and the same rank, if there is one. */
  ghost predicate Gets(stored: seq<Keyed>, key: string, rank: nat, id: Option<Id>) {
    && (forall j :: 0 <= j < |stored| ==>
            (id == Some(stored[j].id) <==> stored[j].key == key && StoredRank(stored, j) == rank))
    && (id.None? <==> rank >= Total(stored, key))
  }

  /** Every entry gets the stored identity of its key and rank. */
  ghost predicate Matched(stored: seq<Keyed>, keys: seq<string>, ids: seq<Option<Id>>) {
    |ids| <= |keys| && forall i :: 0 <= i < |ids| ==> Gets(stored, keys[i], Rank(keys, i), ids[i])
  }

  /** The identities taken by the first n entries: of each key the first ones. */
  ghost predicate UsedAre(used: set<Id>, stored: seq<Keyed>, keys: seq<string>, n: nat)
    requires n <= |keys|
  {
    forall j :: 0 <= j < |stored| ==> (stored[j].id in used
        <==> StoredRank(stored, j) < Occurrences(keys, n, stored[j].key))
  }

  function IdAt(stored: seq<Keyed>, at: nat): Option<Id> { if at < |stored| then Some(stored[at].id) else None }

  function Using(used: set<Id>, id: Option<Id>): set<Id> { if id.Some? then used + {id.value} else used }

  lemma OccurrencesNext(keys: seq<string>, n: nat, key: string)
    requires n < |keys|
    ensures Occurrences(keys, n + 1, key) == Occurrences(keys, n, key) + (if keys[n] == key then 1 else 0)
    ensures Rank(keys, n) == Occurrences(keys, n, keys[n])
  {
  }

  lemma StoredRankIs(stored: seq<Keyed>, i: nat)
    requires i < |stored|
    ensures StoredKeys(stored)[i] == stored[i].key
        && StoredRank(stored, i) == Occurrences(StoredKeys(stored), i, stored[i].key)
    ensures StoredRank(stored, i) < Total(stored, stored[i].key)
  {
    RankBelowCount(StoredKeys(stored), i, |stored|);
  }

  lemma StoredRankRises(stored: seq<Keyed>, i: nat, j: nat)
    requires i < j < |stored| && stored[i].key == stored[j].key
    ensures StoredRank(stored, i) < StoredRank(stored, j)
  {
    RankRises(StoredKeys(stored), i, j);
  }

  /** The unused identity of the right rank is the one to take. */
  lemma TakesNext(stored: seq<Keyed>, used: set<Id>, keys: seq<string>, n: nat, i: nat)
    requires n < |keys| && DistinctIds(stored) && UsedAre(used, stored, keys, n)
    requires i < |stored| && stored[i].key == keys[n] && StoredRank(stored, i) == Rank(keys, n)
    ensures Gets(stored, keys[n], Rank(keys, n), Some(stored[i].id))
        && UsedAre(used + {stored[i].id}, stored, keys, n + 1)
  {
    hide Occurrences, StoredRank, Rank, Total;
    forall j | 0 <= j < |stored|
      ensures stored[j].key == keys[n] ==>
                && (i < j ==> StoredRank(stored, j) > Rank(keys, n))
                && (j < i ==> StoredRank(stored, j) < Rank(keys, n))
      ensures Occurrences(keys, n + 1, stored[j].key) == Occurrences(keys, n, stored[j].key)
          + (if keys[n] == stored[j].key then 1 else 0)
    {
      OccurrencesNext(keys, n, stored[j].key);
      if stored[j].key == keys[n] && i < j { StoredRankRises(stored, i, j); }
      if stored[j].key == keys[n] && j < i { StoredRankRises(stored, j, i); }
    }
    OccurrencesNext(keys, n, keys[n]);
    StoredRankIs(stored, i);
  }

  lemma NothingLeft(stored: seq<Keyed>, used: set<Id>, keys: seq<string>, n: nat)
    requires n < |keys| && UsedAre(used, stored, keys, n) && Total(stored, keys[n]) <= Rank(keys, n)
    ensures Gets(stored, keys[n], Rank(keys, n), None) && UsedAre(used, stored, keys, n + 1)
  {
    hide Occurrences, StoredRank, Rank, Total;
    forall j | 0 <= j < |stored|
      ensures StoredRank(stored, j) < Total(stored, stored[j].key)
      ensures Occurrences(keys, n + 1, stored[j].key) == Occurrences(keys, n, stored[j].key)
          + (if keys[n] == stored[j].key then 1 else 0)
    {
      OccurrencesNext(keys, n, stored[j].key);
      StoredRankIs(stored, j);
    }
    OccurrencesNext(keys, n, keys[n]);
  }

  lemma UsedWhenEarlier(stored: seq<Keyed>, used: set<Id>, keys: seq<string>, n: nat, i: nat)
    requires n < |keys| && UsedAre(used, stored, keys, n) && i < |stored| && stored[i].key == keys[n]
    ensures stored[i].id in used <==> StoredRank(stored, i) < Rank(keys, n)
  {
    hide Occurrences, StoredRank;
  }

  /** The place of the first unused identity of the n-th key, as the program looks for it; the end when there is none.
      */
  method FirstUnused(stored: seq<Keyed>, key: string, used: set<Id>, ghost keys: seq<string>, ghost n: nat)
    returns (at: nat)
    requires n < |keys| && keys[n] == key && DistinctIds(stored) && UsedAre(used, stored, keys, n)
    ensures at <= |stored| && Gets(stored, key, Rank(keys, n), IdAt(stored, at))
    ensures UsedAre(Using(used, IdAt(stored, at)), stored, keys, n + 1)
  {
    hide Gets, UsedAre, DistinctIds, StoredRank, Rank;
    ghost var storedKeys := StoredKeys(stored);
    for i := 0 to |stored|
      invariant Occurrences(storedKeys, i, key) <= Rank(keys, n)
    {
      StoredRankIs(stored, i);
      OccurrencesNext(storedKeys, i, key);
      if stored[i].key == key {
        UsedWhenEarlier(stored, used, keys, n, i);
      }
      if stored[i].id !in used && stored[i].key == key {
        TakesNext(stored, used, keys, n, i);
        return i;
      }
    }
    NothingLeft(stored, used, keys, n);
    at := |stored|;
  }

  lemma NothingUsed(stored: seq<Keyed>, keys: seq<string>)
    ensures UsedAre({}, stored, keys, 0) && Matched(stored, keys, [])
  {
    hide Gets, StoredRank;
  }

  function SlotIds(slots: seq<SlotInput>): seq<Option<Id>> { seq(|slots|, i requires 0 <= i < |slots| => slots[i].id) }

  function UnitIds(units: seq<UnitInput>): seq<Option<Id>> { seq(|units|, i requires 0 <= i < |units| => units[i].id) }

  lemma MatchedGrows(stored: seq<Keyed>, keys: seq<string>, ids: seq<Option<Id>>, id: Option<Id>)
    requires |ids| < |keys| && Matched(stored, keys, ids) && Gets(stored, keys[|ids|], Rank(keys, |ids|), id)
    ensures Matched(stored, keys, ids + [id])
  {
    hide Gets;
  }

  /** The slots of one unit: named as in the file, and identified within the matched unit only. */
  ghost predicate SlotsMatched(matched: Option<Unit>, names: seq<string>, slots: seq<SlotInput>) {
    && |slots| == |names| && (forall i :: 0 <= i < |names| ==> slots[i].name == names[i])
    && (if matched.Some? then Matched(KeyedSlots(matched.value.slots), SlotKeys(names), SlotIds(slots))
        else forall i :: 0 <= i < |names| ==> slots[i].id.None?)
  }

  method MatchSlots(names: seq<string>, matched: Option<Unit>) returns (slots: seq<SlotInput>)
    requires matched.Some? ==> DistinctIds(KeyedSlots(matched.value.slots))
    ensures SlotsMatched(matched, names, slots)
  {
    hide Gets, UsedAre, Matched, DistinctIds, KeyedSlots, NameKey;
    slots := [];
    var used: set<Id> := {};
    var stored := if matched.Some? then KeyedSlots(matched.value.slots) else [];
    ghost var keys := SlotKeys(names);
    NothingUsed(stored, keys);
    assert SlotIds(slots) == [];
    for i := 0 to |names|
      invariant |slots| == i && forall k ::
            0 <= k < i ==> slots[k].name == names[k] && (matched.None? ==> slots[k].id.None?)
      invariant matched.Some? ==> UsedAre(used, stored, keys, i) && Matched(stored, keys, SlotIds(slots))
    {
      var id := None;
      if matched.Some? {
        var at := FirstUnused(stored, NameKey(names[i]), used, keys, i);
        id := IdAt(stored, at);
        MatchedGrows(stored, keys, SlotIds(slots), id);
        assert SlotIds(slots + [SlotInput(names[i], id)]) == SlotIds(slots) + [id];
      }
      used := Using(used, id);
      slots := slots + [SlotInput(names[i], id)];
    }
  }

  ghost predicate StoredOk(units: seq<Unit>) {
    DistinctIds(KeyedUnits(units)) && forall i :: 0 <= i < |units| ==> DistinctIds(KeyedSlots(units[i].slots))
  }

  /** The unit an input was matched with. */
  ghost predicate MatchedWith(units: seq<Unit>, id: Option<Id>, matched: Option<Unit>) {
    if id.Some? then matched.Some? && matched.value in units && matched.value.id == id.value else matched.None?
  }

  ghost predicate UnitMatched(units: seq<Unit>, desired: DesiredUnit, input: UnitInput) {
    && input.name == desired.name
    && exists matched ::
         MatchedWith(units, input.id, matched) && SlotsMatched(matched, desired.slots, input.slots)
  }

  lemma NoUnitsAreOk()
    ensures StoredOk([])
  {
  }

  lemma UnitFacts(units: seq<Unit>)
    requires StoredOk(units)
    ensures |KeyedUnits(units)| == |units| && DistinctIds(KeyedUnits(units))
    ensures forall i ::
          0 <= i < |units| ==> KeyedUnits(units)[i].id == units[i].id && DistinctIds(KeyedSlots(units[i].slots))
  {
  }

  /** The input of one unit, matched with the stored unit at the given place or, at the end, with none. */
  method MatchUnit(desired: DesiredUnit, units: seq<Unit>, at: nat) returns (input: UnitInput)
    requires StoredOk(units) && at <= |units|
    ensures input.id == IdAt(KeyedUnits(units), at) && UnitMatched(units, desired, input)
  {
    hide SlotsMatched, StoredOk, KeyedUnits, KeyedSlots, DistinctIds;
    UnitFacts(units);
    var matched := if at < |units| then Some(units[at]) else None;
    var slots := MatchSlots(desired.slots, matched);
    input := UnitInput(desired.name, if at < |units| then Some(units[at].id) else None, slots);
    assert MatchedWith(units, input.id, matched);
  }

  /** Units are matched by key and rank, and slots likewise inside the matched unit only; without a stored setup there
      is nothing to match. */
  method SetupInput(desired: seq<DesiredUnit>, current: Option<seq<Unit>>) returns (input: seq<UnitInput>)
    requires current.Some? ==> StoredOk(current.value)
    ensures |input| == |desired|
    ensures var units := if current.Some? then current.value else [];
            && Matched(KeyedUnits(units), UnitKeys(desired), UnitIds(input))
            && forall i :: 0 <= i < |desired| ==> UnitMatched(units, desired[i], input[i])
  {
    hide Gets, UsedAre, Matched, DistinctIds, KeyedUnits, StoredOk, UnitMatched, NameKey;
    input := [];
    var used: set<Id> := {};
    var units := if current.Some? then current.value else [];
    var stored := KeyedUnits(units);
    ghost var keys := UnitKeys(desired);
    NoUnitsAreOk();
    UnitFacts(units);
    NothingUsed(stored, keys);
    assert UnitIds(input) == [];
    for i := 0 to |desired|
      invariant |input| == i && UsedAre(used, stored, keys, i) && Matched(stored, keys, UnitIds(input))
      invariant forall k :: 0 <= k < i ==> UnitMatched(units, desired[k], input[k])
    {
      var at := FirstUnused(stored, NameKey(desired[i].name), used, keys, i);
      var unit := MatchUnit(desired[i], units, at);
      MatchedGrows(stored, keys, UnitIds(input), unit.id);
      assert UnitIds(input + [unit]) == UnitIds(input) + [unit.id];
      used := Using(used, unit.id);
      input := input + [unit];
    }
  }

  /* ---------- What the matching means ---------- */

  /** No stored identity is given out twice, and each is given to an entry of its own key. */
  lemma IdentitiesAreUsedOnce(stored: seq<Keyed>, keys: seq<string>, ids: seq<Option<Id>>, i: nat, k: nat, j: nat)
    requires Matched(stored, keys, ids) && i < |ids| && k < |ids| && j < |stored|
    requires ids[i] == Some(stored[j].id) && ids[k] == Some(stored[j].id)
    ensures i == k && keys[i] == stored[j].key
  {
    assert Gets(stored, keys[i], Rank(keys, i), ids[i]) && Gets(stored, keys[k], Rank(keys, k), ids[k]);
    if i < k {
      RankRises(keys, i, k);
    } else if k < i {
      RankRises(keys, k, i);
    }
  }

  /** How many of the first n entries have the key and got an identity. */
  function MatchedCount(keys: seq<string>, ids: seq<Option<Id>>, n: nat, key: string): nat
    requires n <= |ids| <= |keys|
  {
    if n == 0 then 0 else MatchedCount(keys, ids, n - 1, key) + (if keys[n - 1] == key && ids[n - 1].Some? then 1
        else 0)
  }

  lemma GetsWhenLeft(stored: seq<Keyed>, key: string, rank: nat, id: Option<Id>)
    requires Gets(stored, key, rank, id)
    ensures id.Some? <==> rank < Total(stored, key)
  {
  }

  function Min(a: nat, b: nat): nat { if a <= b then a else b }

  /** Per key exactly min(wanted, stored) entries keep an identity, and they are the first ones. */
  lemma {:induction false} AsManyAsPossibleMatch(stored: seq<Keyed>, keys: seq<string>, ids: seq<Option<Id>>, n: nat,
                                        key: string)
    requires Matched(stored, keys, ids) && n <= |ids|
    ensures MatchedCount(keys, ids, n, key) == Min(Occurrences(keys, n, key), Total(stored, key))
    ensures forall i :: 0 <= i < n && keys[i] == key ==> (ids[i].Some? <==> Rank(keys, i) < Total(stored, key))
  {
    hide Gets, Total;
    if n == 0 {
      hide Matched;
    } else {
      AsManyAsPossibleMatch(stored, keys, ids, n - 1, key);
      GetsWhenLeft(stored, keys[n - 1], Rank(keys, n - 1), ids[n - 1]);
    }
  }

  predicate SameName(s: string, t: string) { |s| == |t| && forall i :: 0 <= i < |s| ==> SameLetter(s[i], t[i]) }

  /** Units and slots are compared by their names alone, and without the case of ASCII letters. */
  lemma CaseDoesNotMatter(units: seq<Unit>, others: seq<Unit>, slots: seq<Slot>, otherSlots: seq<Slot>)
    requires |units| == |others| && |slots| == |otherSlots|
    requires forall i :: 0 <= i < |units| ==> units[i].id == others[i].id && SameName(units[i].name, others[i].name)
    requires forall i :: 0 <= i < |slots| ==>
               slots[i].id == otherSlots[i].id && SameName(slots[i].name, otherSlots[i].name)
    ensures KeyedUnits(units) == KeyedUnits(others) && KeyedSlots(slots) == KeyedSlots(otherSlots)
  {
    hide NameKey;
    forall i | 0 <= i < |units| ensures NameKey(units[i].name) == NameKey(others[i].name) {
      KeyIgnoresCase(units[i].name, others[i].name);
    }
    forall i | 0 <= i < |slots| ensures NameKey(slots[i].name) == NameKey(otherSlots[i].name) {
      KeyIgnoresCase(slots[i].name, otherSlots[i].name);
    }
  }
}
