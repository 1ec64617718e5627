/** Planning the rule changes that make a pricing group's active rules equal the file. */
module PricingPlan {
  import opened Options
  import opened Texts

  type Id = nat

  datatype Rule = Rule(
    kind: string,
    process: Option<string>,
    material: Option<string>,
    variant: Option<string>,
    measure: Option<string>,
    rate: string)

  datatype Stored = Stored(id: Id, rule: Rule)

  /* ---------- Keys ---------- */

  function PartKey(name: Option<string>): string { if name.Some? then NameKey(name.value) else "" }

  function MeasureKey(r: Rule): string { if r.measure.Some? then r.measure.value else "" }

  /** The last parts of a rule's key: measure, variant, material type, process. */
  function KeyTail(r: Rule, parts: nat): string
    requires parts <= 3
  {
    if parts == 0 then MeasureKey(r)
    else (if parts == 1 then PartKey(r.variant) else if parts == 2 then PartKey(r.material)
        else PartKey(r.process)) + ['\0'] + KeyTail(r, parts - 1)
  }

  function RuleKey(r: Rule): string { r.kind + ['\0'] + KeyTail(r, 3) }

  predicate NulFree(name: Option<string>) { name.Some? ==> Without(name.value, '\0') }

  predicate PlainRule(r: Rule) {
    Without(r.kind, '\0') && NulFree(r.process) && NulFree(r.material) && NulFree(r.variant) && NulFree(r.measure)
  }

  predicate SameTarget(a: Rule, b: Rule) {
    && a.kind == b.kind && PartKey(a.process) == PartKey(b.process) && PartKey(a.material) == PartKey(b.material)
    && PartKey(a.variant) == PartKey(b.variant) && MeasureKey(a) == MeasureKey(b)
  }

  /** A text up to its first separator is determined. */
  lemma SplitAtNul(a: string, b: string, c: string, d: string)
    requires a + ['\0'] + b == c + ['\0'] + d && Without(a, '\0') && Without(c, '\0')
    ensures a == c && b == d
  {
    var s := a + ['\0'] + b;
    assert s == c + ['\0'] + d;
    assert (forall i :: 0 <= i < |a| ==> s[i] == a[i]) && s[|a|] == '\0';
    assert (forall i :: 0 <= i < |c| ==> s[i] == c[i]) && s[|c|] == '\0';
    assert |a| == |c|;
    assert a == s[..|a|] == c && b == s[|a| + 1..] == d;
  }

  function Nuls(s: string): nat { if s == [] then 0 else (if s[0] == '\0' then 1 else 0) + Nuls(s[1..]) }

  lemma {:induction false} NulsOfSum(a: string, b: string)
    ensures Nuls(a + b) == Nuls(a) + Nuls(b)
  {
    if a == [] {
      assert a + b == b;
    } else {
      NulsOfSum(a[1..], b);
      assert (a + b)[1..] == a[1..] + b;
    }
  }

  lemma {:induction false} NoNuls(s: string)
    ensures Nuls(s) == 0 <==> Without(s, '\0')
  {
    if s != [] {
      NoNuls(s[1..]);
    }
  }

  predicate PlainParts(r: Rule) {
    && Without(r.kind, '\0') && Without(PartKey(r.process), '\0') && Without(PartKey(r.material), '\0')
    && Without(PartKey(r.variant), '\0') && Without(MeasureKey(r), '\0')
  }

  lemma PlainRuleHasPlainParts(r: Rule)
    requires PlainRule(r)
    ensures PlainParts(r)
  {
    if r.process.Some? { KeyWithoutNul(r.process.value); }
    if r.material.Some? { KeyWithoutNul(r.material.value); }
    if r.variant.Some? { KeyWithoutNul(r.variant.value); }
  }

  lemma NulsOfJoined(part: string, rest: string)
    ensures Nuls(part + ['\0'] + rest) == Nuls(part) + 1 + Nuls(rest)
  {
    NulsOfSum(part + ['\0'], rest);
    NulsOfSum(part, ['\0']);
  }

  /** A key has the NULs of its parts and four between them, so it has four exactly when its parts have none. */
  lemma PlainKeysHaveFourNuls(r: Rule)
    ensures Nuls(RuleKey(r)) >= 4 && (Nuls(RuleKey(r)) == 4 <==> PlainParts(r))
  {
    hide NameKey, PartKey, Without, Nuls, MeasureKey;
    NulsOfJoined(r.kind, KeyTail(r, 3));
    NulsOfJoined(PartKey(r.process), KeyTail(r, 2));
    NulsOfJoined(PartKey(r.material), KeyTail(r, 1));
    NulsOfJoined(PartKey(r.variant), KeyTail(r, 0));
    NoNuls(r.kind);
    NoNuls(PartKey(r.process));
    NoNuls(PartKey(r.material));
    NoNuls(PartKey(r.variant));
    NoNuls(MeasureKey(r));
  }

  lemma {:induction false} TailsAgree(a: Rule, b: Rule, parts: nat)
    requires SameTarget(a, b) && parts <= 3
    ensures KeyTail(a, parts) == KeyTail(b, parts)
  {
    hide NameKey, PartKey;
    if parts > 0 {
      TailsAgree(a, b, parts - 1);
    }
  }

  /** A rule without NUL, as the database stores them, shares its key with exactly the rules that price the same target,
      whatever the file writes in those. */
  lemma KeysIdentifyTargets(a: Rule, b: Rule)
    requires PlainRule(a) || PlainRule(b)
    ensures RuleKey(a) == RuleKey(b) <==> SameTarget(a, b)
  {
    hide NameKey, PartKey, Without, Nuls, MeasureKey;
    if RuleKey(a) == RuleKey(b) {
      if PlainRule(a) { PlainRuleHasPlainParts(a); } else { PlainRuleHasPlainParts(b); }
      PlainKeysHaveFourNuls(a);
      PlainKeysHaveFourNuls(b);
      SplitAtNul(a.kind, KeyTail(a, 3), b.kind, KeyTail(b, 3));
      SplitAtNul(PartKey(a.process), KeyTail(a, 2), PartKey(b.process), KeyTail(b, 2));
      SplitAtNul(PartKey(a.material), KeyTail(a, 1), PartKey(b.material), KeyTail(b, 1));
      SplitAtNul(PartKey(a.variant), KeyTail(a, 0), PartKey(b.variant), KeyTail(b, 0));
    }
    if SameTarget(a, b) {
      TailsAgree(a, b, 3);
    }
  }

  /** So a collision takes a NUL in both rules; which of those collide, CollideExactlyWhen says. */
  lemma CollisionsTakeTwoNuls(a: Rule, b: Rule)
    requires RuleKey(a) == RuleKey(b) && !SameTarget(a, b)
    ensures !PlainRule(a) && !PlainRule(b)
  {
    hide RuleKey, SameTarget, PlainRule;
    if PlainRule(a) || PlainRule(b) {
      KeysIdentifyTargets(a, b);
    }
  }

  /** The pieces of a text between its NULs. */
  function Pieces(s: string): (pieces: seq<string>)
    ensures |pieces| == Nuls(s) + 1
  {
    if s == [] then [""] else Prefixed(s[0], Pieces(s[1..]))
  }

  function Prefixed(c: char, pieces: seq<string>): seq<string>
    requires pieces != []
  {
    if c == '\0' then [""] + pieces else [[c] + pieces[0]] + pieces[1..]
  }

  lemma PrefixedSum(c: char, a: seq<string>, b: seq<string>)
    requires a != []
    ensures Prefixed(c, a + b) == Prefixed(c, a) + b
  {
    assert (a + b)[0] == a[0] && (a + b)[1..] == a[1..] + b;
  }

  lemma {:induction false} PiecesOfJoined(part: string, rest: string)
    ensures Pieces(part + ['\0'] + rest) == Pieces(part) + Pieces(rest)
  {
    var joined := part + ['\0'] + rest;
    if part == [] {
      assert joined[1..] == rest;
    } else {
      PiecesOfJoined(part[1..], rest);
      hide Prefixed;
      assert joined[1..] == part[1..] + ['\0'] + rest && joined[0] == part[0];
      PrefixedSum(part[0], Pieces(part[1..]), Pieces(rest));
    }
  }

  lemma PrefixedDetermines(c: char, a: seq<string>, d: char, b: seq<string>)
    requires a != [] && b != [] && Prefixed(c, a) == Prefixed(d, b)
    ensures c == d && a == b
  {
    var x, y := Prefixed(c, a), Prefixed(d, b);
    assert x[0] == y[0] && x[1..] == y[1..];
    if c != '\0' && d != '\0' {
      assert x[0][0] == c && y[0][0] == d;
      assert a[0] == x[0][1..] == y[0][1..] == b[0];
      assert a[1..] == x[1..] == y[1..] == b[1..];
      assert a == [a[0]] + a[1..] && b == [b[0]] + b[1..];
    } else {
      assert c == d && a == x[1..] == y[1..] == b;
    }
  }

  lemma EmptyPiece(s: string)
    ensures Pieces(s) == [""] <==> s == []
  {
  }

  lemma {:induction false} PiecesDetermine(s: string, t: string)
    requires Pieces(s) == Pieces(t)
    ensures s == t
  {
    if s == [] || t == [] {
      EmptyPiece(s);
      EmptyPiece(t);
    } else {
      PrefixedDetermines(s[0], Pieces(s[1..]), t[0], Pieces(t[1..]));
      PiecesDetermine(s[1..], t[1..]);
      assert s == [s[0]] + s[1..] && t == [t[0]] + t[1..];
    }
  }

  function AllPieces(r: Rule): seq<string> {
    Pieces(r.kind) + (Pieces(PartKey(r.process)) + (Pieces(PartKey(r.material))
        + (Pieces(PartKey(r.variant)) + Pieces(MeasureKey(r)))))
  }

  /** The NULs are spread over the parts of both rules in the same way. */
  predicate SameNuls(a: Rule, b: Rule) {
    && Nuls(a.kind) == Nuls(b.kind) && Nuls(PartKey(a.process)) == Nuls(PartKey(b.process))
    && Nuls(PartKey(a.material)) == Nuls(PartKey(b.material)) && Nuls(PartKey(a.variant)) == Nuls(PartKey(b.variant))
  }

  lemma PiecesOfKey(r: Rule)
    ensures Pieces(RuleKey(r)) == AllPieces(r)
  {
    hide NameKey, PartKey, MeasureKey, Pieces;
    PiecesOfJoined(r.kind, KeyTail(r, 3));
    PiecesOfJoined(PartKey(r.process), KeyTail(r, 2));
    PiecesOfJoined(PartKey(r.material), KeyTail(r, 1));
    PiecesOfJoined(PartKey(r.variant), KeyTail(r, 0));
  }

  /** One part of two rules, when all pieces from there on are the same and the part has equally many NULs. */
  lemma SamePart(a: string, b: string, afterA: seq<string>, afterB: seq<string>)
    requires Pieces(a) + afterA == Pieces(b) + afterB && Nuls(a) == Nuls(b)
    ensures a == b && afterA == afterB
  {
    hide Pieces, Nuls;
    assert Pieces(a) == (Pieces(a) + afterA)[..Nuls(a) + 1] == Pieces(b);
    assert afterA == (Pieces(a) + afterA)[Nuls(a) + 1..] == afterB;
    PiecesDetermine(a, b);
  }

  lemma SameSpreadIsSameTarget(a: Rule, b: Rule)
    requires AllPieces(a) == AllPieces(b) && SameNuls(a, b)
    ensures SameTarget(a, b)
  {
    hide NameKey, PartKey, MeasureKey, Pieces, Nuls;
    var variantA, variantB := Pieces(PartKey(a.variant)), Pieces(PartKey(b.variant));
    var lastA, lastB := Pieces(MeasureKey(a)), Pieces(MeasureKey(b));
    var materialA, materialB := Pieces(PartKey(a.material)), Pieces(PartKey(b.material));
    var processA, processB := Pieces(PartKey(a.process)), Pieces(PartKey(b.process));
    SamePart(a.kind, b.kind, processA + (materialA + (variantA + lastA)), processB + (materialB + (variantB + lastB)));
    SamePart(PartKey(a.process), PartKey(b.process), materialA + (variantA + lastA), materialB + (variantB + lastB));
    SamePart(PartKey(a.material), PartKey(b.material), variantA + lastA, variantB + lastB);
    SamePart(PartKey(a.variant), PartKey(b.variant), lastA, lastB);
    PiecesDetermine(MeasureKey(a), MeasureKey(b));
  }

  /** Rules of different targets have one key exactly when their parts, cut at the NULs, give the same pieces in order,
      and the NULs are spread over the parts in different ways. */
  lemma CollideExactlyWhen(a: Rule, b: Rule)
    ensures RuleKey(a) == RuleKey(b) && !SameTarget(a, b) <==> AllPieces(a) == AllPieces(b) && !SameNuls(a, b)
  {
    hide RuleKey, AllPieces, Pieces;
    PiecesOfKey(a);
    PiecesOfKey(b);
    if Pieces(RuleKey(a)) == Pieces(RuleKey(b)) {
      PiecesDetermine(RuleKey(a), RuleKey(b));
      if SameNuls(a, b) {
        SameSpreadIsSameTarget(a, b);
      }
    }
  }

  /** Then keys of different targets can be equal. */
  lemma NulMakesKeysCollide()
    ensures var a := Rule("k", None, None, None, Some("\0"), "1");
            var b := Rule("k\0", None, None, None, None, "1");
            RuleKey(a) == RuleKey(b) && !SameTarget(a, b)
  {
    var a := Rule("k", None, None, None, Some("\0"), "1");
    var b := Rule("k\0", None, None, None, None, "1");
    assert KeyTail(a, 1) == "\0\0" && KeyTail(b, 1) == "\0";
    assert KeyTail(a, 2) == "\0\0\0" && KeyTail(b, 2) == "\0\0";
    assert RuleKey(a) == "k\0\0\0\0\0";
    assert RuleKey(b) == "k\0\0\0\0\0";
  }

  predicate SameName(s: Option<string>, t: Option<string>) {
    if s.Some? && t.Some?
    then |s.value| == |t.value| && forall i :: 0 <= i < |s.value| ==> SameLetter(s.value[i], t.value[i])
    else s == t
  }

  /** Rules of one kind and measure whose names differ only in the case of ASCII letters have one key, whatever their
      rates. */
  lemma CaseDoesNotMatter(a: Rule, b: Rule)
    requires a.kind == b.kind && a.measure == b.measure
    requires SameName(a.process, b.process) && SameName(a.material, b.material) && SameName(a.variant, b.variant)
    ensures RuleKey(a) == RuleKey(b)
  {
    hide NameKey;
    if a.process.Some? { KeyIgnoresCase(a.process.value, b.process.value); }
    if a.material.Some? { KeyIgnoresCase(a.material.value, b.material.value); }
    if a.variant.Some? { KeyIgnoresCase(a.variant.value, b.variant.value); }
    hide KeyTail;
    TailsAgree(a, b, 3);
  }

  /* ---------- Planning ---------- */

  datatype Change = Create(rule: Rule) | Update(row: Stored, rate: string) | Deactivate(row: Stored)

  function ByKey(rows: seq<Stored>): map<string, Stored> {
    if rows == [] then map[] else ByKey(rows[..|rows| - 1])[RuleKey(rows[|rows| - 1].rule) := rows[|rows| - 1]]
  }

  function Keys(rules: seq<Rule>): set<string> { set i | 0 <= i < |rules| :: RuleKey(rules[i]) }

  predicate NeedsWrite(byKey: map<string, Stored>, rule: Rule) {
    RuleKey(rule) !in byKey || byKey[RuleKey(rule)].rule.rate != rule.rate
  }

  function WriteOf(byKey: map<string, Stored>, rule: Rule): Change {
    if RuleKey(rule) !in byKey then Create(rule) else Update(byKey[RuleKey(rule)], rule.rate)
  }

  function Writes(byKey: map<string, Stored>, desired: seq<Rule>): seq<Change> {
    if desired == [] then []
    else
      var rule := desired[|desired| - 1];
      Writes(byKey, desired[..|desired| - 1]) + (if NeedsWrite(byKey, rule) then [WriteOf(byKey, rule)] else [])
  }

  function Removals(rows: seq<Stored>, wanted: set<string>): seq<Change> {
    if rows == [] then []
    else
      Removals(rows[..|rows| - 1], wanted) + (if RuleKey(rows[|rows| - 1].rule) in wanted then []
          else [Deactivate(rows[|rows| - 1])])
  }

  function Planned(current: seq<Stored>, desired: seq<Rule>): seq<Change> {
    Writes(ByKey(current), desired) + Removals(current, Keys(desired))
  }

  lemma Unroll(rows: seq<Stored>, i: nat, wanted: set<string>)
    requires i < |rows|
    ensures ByKey(rows[..i + 1]) == ByKey(rows[..i])[RuleKey(rows[i].rule) := rows[i]]
    ensures Removals(rows[..i + 1], wanted) == Removals(rows[..i], wanted) + (if RuleKey(rows[i].rule) in wanted
        then [] else [Deactivate(rows[i])])
  {
    assert rows[..i + 1][..i] == rows[..i];
  }

  lemma UnrollWrites(byKey: map<string, Stored>, desired: seq<Rule>, i: nat)
    requires i < |desired|
    ensures Keys(desired[..i + 1]) == Keys(desired[..i]) + {RuleKey(desired[i])}
    ensures Writes(byKey, desired[..i + 1])
            == Writes(byKey, desired[..i]) + (if NeedsWrite(byKey, desired[i]) then [WriteOf(byKey, desired[i])]
                else [])
  {
    hide RuleKey, NeedsWrite, WriteOf;
    var next := desired[..i + 1];
    assert next[..i] == desired[..i];
    assert forall k :: 0 <= k < i ==> next[k] == desired[..i][k];
    assert next[i] == desired[i];
  }

  lemma EmptyPlans(byKey: map<string, Stored>, wanted: set<string>)
    ensures ByKey([]) == map[] && Writes(byKey, []) == [] && Keys([]) == {} && Removals([], wanted) == []
  {
  }

  method PlanRules(current: seq<Stored>, desired: seq<Rule>) returns (changes: seq<Change>)
    ensures changes == Planned(current, desired)
  {
    hide ByKey, Writes, Keys, Removals, RuleKey;
    assert current[..|current|] == current && desired[..|desired|] == desired && current[..0] == []
        && desired[..0] == [];
    EmptyPlans(map[], {});
    var byKey: map<string, Stored> := map[];
    for i := 0 to |current|
      invariant byKey == ByKey(current[..i])
    {
      Unroll(current, i, {});
      byKey := byKey[RuleKey(current[i].rule) := current[i]];
    }
    changes := [];
    var wanted: set<string> := {};
    EmptyPlans(byKey, {});
    for i := 0 to |desired|
      invariant changes == Writes(byKey, desired[..i]) && wanted == Keys(desired[..i])
    {
      UnrollWrites(byKey, desired, i);
      var key := RuleKey(desired[i]);
      wanted := wanted + {key};
      if key !in byKey {
        changes := changes + [Create(desired[i])];
      } else if byKey[key].rule.rate != desired[i].rate {
        changes := changes + [Update(byKey[key], desired[i].rate)];
      }
    }
    ghost var writes := changes;
    EmptyPlans(byKey, wanted);
    for i := 0 to |current|
      invariant changes == writes + Removals(current[..i], wanted)
    {
      Unroll(current, i, wanted);
      if RuleKey(current[i].rule) !in wanted {
        changes := changes + [Deactivate(current[i])];
      }
    }
  }

  /* ---------- Applying the plan ---------- */

  /** A group's active rules by id. Creating a rule gives it a new id; a deactivated rule is active no more. */
  function Applied(rules: map<Id, Rule>, c: Change, newID: Id): map<Id, Rule> {
    match c
    case Create(rule) => rules[newID := rule]
    case Update(row, rate) => rules[row.id := row.rule.(rate := rate)]
    case Deactivate(row) => rules - {row.id}
  }

  function AppliedAll(rules: map<Id, Rule>, changes: seq<Change>, newIDs: seq<Id>): map<Id, Rule>
    requires |newIDs| == |changes|
    decreases |changes|
  {
    if changes == [] then rules else AppliedAll(Applied(rules, changes[0], newIDs[0]), changes[1..], newIDs[1..])
  }

  ghost predicate UniqueKeys(rules: map<Id, Rule>) {
    forall i, j :: i in rules && j in rules && RuleKey(rules[i]) == RuleKey(rules[j]) ==> i == j
  }

  /** Keys are unique before and after every single change. */
  ghost predicate UniqueThroughout(rules: map<Id, Rule>, changes: seq<Change>, newIDs: seq<Id>)
    requires |newIDs| == |changes|
    decreases |changes|
  {
    UniqueKeys(rules) && (changes != []
        ==> UniqueThroughout(Applied(rules, changes[0], newIDs[0]), changes[1..], newIDs[1..]))
  }

  function ChangeKey(c: Change): string { if c.Create? then RuleKey(c.rule) else RuleKey(c.row.rule) }

  /** Which rate a key has. */
  ghost predicate Priced(rules: map<Id, Rule>, key: string, rate: string) {
    exists id :: id in rules && RuleKey(rules[id]) == key && rules[id].rate == rate
  }

  ghost predicate Fits(rules: map<Id, Rule>, c: Change) {
    if c.Create? then forall id :: id in rules ==> RuleKey(rules[id]) != RuleKey(c.rule)
    else c.row.id in rules && rules[c.row.id] == c.row.rule
  }

  ghost predicate ValidPlan(rules: map<Id, Rule>, changes: seq<Change>) {
    && (forall i :: 0 <= i < |changes| ==> Fits(rules, changes[i]))
    && (forall i, j :: 0 <= i < j < |changes| ==> ChangeKey(changes[i]) != ChangeKey(changes[j]))
  }

  predicate NewIDs(rules: map<Id, Rule>, newIDs: seq<Id>) {
    (forall i :: 0 <= i < |newIDs| ==> newIDs[i] !in rules)
        && (forall i, j :: 0 <= i < j < |newIDs| ==> newIDs[i] != newIDs[j])
  }

  function RateAfter(c: Change): Option<string> {
    match c case Create(rule) => Some(rule.rate) case Update(_, rate) => Some(rate) case Deactivate(_) => None
  }

  lemma SameKeyAtNewRate(r: Rule, rate: string)
    ensures RuleKey(r.(rate := rate)) == RuleKey(r)
  {
    hide NameKey;
    TailsAgree(r.(rate := rate), r, 3);
  }

  lemma ChangeApplies(rules: map<Id, Rule>, c: Change, newID: Id)
    requires UniqueKeys(rules) && Fits(rules, c) && newID !in rules
    ensures var after := Applied(rules, c, newID);
            && UniqueKeys(after)
            && (forall key, rate :: Priced(after, key, rate) <==> if key == ChangeKey(c)
                then RateAfter(c) == Some(rate) else Priced(rules, key, rate))
            && (forall id ::
                    id in rules && RuleKey(rules[id]) != ChangeKey(c) ==> id in after && after[id] == rules[id])
            && after.Keys <= rules.Keys + {newID}
  {
    if c.Update? {
      SameKeyAtNewRate(c.row.rule, c.rate);
    }
    hide RuleKey;
    var after := Applied(rules, c, newID);
    forall key, rate
      ensures Priced(after, key, rate) <==> if key == ChangeKey(c) then RateAfter(c) == Some(rate)
          else Priced(rules, key, rate)
    {
      if Priced(rules, key, rate) {
        var id :| id in rules && RuleKey(rules[id]) == key && rules[id].rate == rate;
        assert key != ChangeKey(c) ==> id in after && after[id] == rules[id];
      }
      if key == ChangeKey(c) && RateAfter(c) == Some(rate) {
        assert (if c.Create? then newID else c.row.id) in after;
      }
    }
  }

  ghost predicate Mentions(changes: seq<Change>, key: string)
  {
    exists i :: 0 <= i < |changes| && ChangeKey(changes[i]) == key
  }

  ghost predicate SetsTo(changes: seq<Change>, key: string, rate: string) {
    exists i :: 0 <= i < |changes| && ChangeKey(changes[i]) == key && RateAfter(changes[i]) == Some(rate)
  }

  lemma NextPlan(rules: map<Id, Rule>, changes: seq<Change>, newIDs: seq<Id>)
    requires UniqueKeys(rules) && ValidPlan(rules, changes) && |newIDs| == |changes| > 0 && NewIDs(rules, newIDs)
    ensures ValidPlan(Applied(rules, changes[0], newIDs[0]), changes[1..])
        && NewIDs(Applied(rules, changes[0], newIDs[0]), newIDs[1..])
  {
    var c, after, rest := changes[0], Applied(rules, changes[0], newIDs[0]), changes[1..];
    ChangeApplies(rules, c, newIDs[0]);
    hide RuleKey, Applied, RateAfter;
    forall j | 0 <= j < |rest| ensures Fits(after, rest[j]) {
      assert ChangeKey(rest[j]) != ChangeKey(c) && Fits(rules, rest[j]);
      if rest[j].Create? {
        forall id | id in after ensures RuleKey(after[id]) != ChangeKey(rest[j]) {
          assert Priced(after, RuleKey(after[id]), after[id].rate);
        }
      }
    }
  }

  lemma MentionsFirst(changes: seq<Change>, key: string, rate: string)
    requires changes != []
    ensures Mentions(changes, key) <==> ChangeKey(changes[0]) == key || Mentions(changes[1..], key)
    ensures SetsTo(changes, key, rate) <==>
              || (ChangeKey(changes[0]) == key && RateAfter(changes[0]) == Some(rate))
              || SetsTo(changes[1..], key, rate)
  {
    hide ChangeKey, RateAfter, RuleKey;
    assert forall i :: 0 < i < |changes| ==> changes[i] == changes[1..][i - 1];
    assert forall i :: 0 <= i < |changes| - 1 ==> changes[1..][i] == changes[i + 1];
  }

  /** A valid plan keeps keys unique at every step, gives each key it mentions the rate it says, and touches nothing
      else. */
  lemma {:induction false} PlanApplies(rules: map<Id, Rule>, changes: seq<Change>, newIDs: seq<Id>)
    requires UniqueKeys(rules) && ValidPlan(rules, changes) && |newIDs| == |changes| && NewIDs(rules, newIDs)
    ensures UniqueThroughout(rules, changes, newIDs)
    ensures var after := AppliedAll(rules, changes, newIDs);
            && UniqueKeys(after)
            && (forall key, rate :: Priced(after, key, rate) <==> if Mentions(changes, key)
                then SetsTo(changes, key, rate) else Priced(rules, key, rate))
            && (forall id ::
                    id in rules && !Mentions(changes, RuleKey(rules[id])) ==> id in after && after[id] == rules[id])
    decreases |changes|
  {
    if changes != [] {
      var next, rest := Applied(rules, changes[0], newIDs[0]), changes[1..];
      ChangeApplies(rules, changes[0], newIDs[0]);
      NextPlan(rules, changes, newIDs);
      PlanApplies(next, rest, newIDs[1..]);
      hide RuleKey, Applied, RateAfter, UniqueKeys, ValidPlan, NewIDs, Mentions, SetsTo, Priced;
      var after := AppliedAll(rules, changes, newIDs);
      forall key, rate
        ensures Priced(after, key, rate) <==> if Mentions(changes, key) then SetsTo(changes, key, rate)
            else Priced(rules, key, rate)
      {
        MentionsFirst(changes, key, rate);
        FirstIsOnly(rules, changes, key, rate);
      }
      forall id | id in rules && !Mentions(changes, RuleKey(rules[id])) ensures id in after && after[id] == rules[id] {
        MentionsFirst(changes, RuleKey(rules[id]), "");
      }
    }
  }

  lemma FirstIsOnly(rules: map<Id, Rule>, changes: seq<Change>, key: string, rate: string)
    requires ValidPlan(rules, changes) && changes != []
    ensures ChangeKey(changes[0]) == key ==> !Mentions(changes[1..], key)
    ensures SetsTo(changes[1..], key, rate) ==> Mentions(changes[1..], key)
  {
    hide Fits, RuleKey;
  }

  /* ---------- The plan is valid and says what the file says ---------- */

  predicate UniqueRules(rules: seq<Rule>)
  {
    forall i, j :: 0 <= i < j < |rules| ==> RuleKey(rules[i]) != RuleKey(rules[j])
  }

  /** The rows list the active rules. */
  ghost predicate Lists(rows: seq<Stored>, rules: map<Id, Rule>) {
    && (forall i :: 0 <= i < |rows| ==> rows[i].id in rules && rules[rows[i].id] == rows[i].rule)
    && (forall id :: id in rules ==> exists i :: 0 <= i < |rows| && rows[i].id == id)
    && (forall i, j :: 0 <= i < j < |rows| ==> rows[i].id != rows[j].id)
  }

  ghost predicate Wanted(desired: seq<Rule>, key: string, rate: string) {
    exists i :: 0 <= i < |desired| && RuleKey(desired[i]) == key && desired[i].rate == rate
  }

  lemma {:induction false} ByKeyFinds(rows: seq<Stored>, key: string)
    ensures key in ByKey(rows) ==> ByKey(rows)[key] in rows && RuleKey(ByKey(rows)[key].rule) == key
    ensures key in ByKey(rows) <==> exists i :: 0 <= i < |rows| && RuleKey(rows[i].rule) == key
  {
    hide RuleKey;
    if rows != [] {
      ByKeyFinds(rows[..|rows| - 1], key);
    }
  }

  /** The writes are those of the rules that need one, in file order. */
  lemma {:induction false} WritesAre(byKey: map<string, Stored>, desired: seq<Rule>)
    ensures forall c :: c in Writes(byKey, desired) <==>
          exists i :: 0 <= i < |desired| && NeedsWrite(byKey, desired[i]) && c == WriteOf(byKey, desired[i])
  {
    hide NeedsWrite, WriteOf;
    if desired != [] {
      WritesAre(byKey, desired[..|desired| - 1]);
    }
  }

  lemma {:induction false} RemovalsAre(rows: seq<Stored>, wanted: set<string>)
    ensures forall c :: c in Removals(rows, wanted) <==>
          exists i :: 0 <= i < |rows| && RuleKey(rows[i].rule) !in wanted && c == Deactivate(rows[i])
  {
    hide RuleKey;
    if rows != [] {
      RemovalsAre(rows[..|rows| - 1], wanted);
    }
  }

  ghost predicate DistinctKeys(changes: seq<Change>) {
    forall i, j :: 0 <= i < j < |changes| ==> ChangeKey(changes[i]) != ChangeKey(changes[j])
  }

  ghost predicate WellKeyed(byKey: map<string, Stored>)
  {
    forall key :: key in byKey ==> RuleKey(byKey[key].rule) == key
  }

  lemma KeyOfWrite(byKey: map<string, Stored>, rule: Rule)
    requires WellKeyed(byKey)
    ensures ChangeKey(WriteOf(byKey, rule)) == RuleKey(rule)
  {
  }

  lemma JoinDistinct(a: seq<Change>, b: seq<Change>)
    requires DistinctKeys(a) && DistinctKeys(b) && forall c, d :: c in a && d in b ==> ChangeKey(c) != ChangeKey(d)
    ensures DistinctKeys(a + b)
  {
    hide ChangeKey;
    var all := a + b;
    forall i, j | 0 <= i < j < |all| ensures ChangeKey(all[i]) != ChangeKey(all[j]) {
      assert all[i] == if i < |a| then a[i] else b[i - |a|];
      assert all[j] == if j < |a| then a[j] else b[j - |a|];
    }
  }

  lemma {:induction false} WritesDistinct(byKey: map<string, Stored>, desired: seq<Rule>)
    requires WellKeyed(byKey) && UniqueRules(desired)
    ensures DistinctKeys(Writes(byKey, desired))
  {
    if desired != [] {
      var before, rule := desired[..|desired| - 1], desired[|desired| - 1];
      WritesDistinct(byKey, before);
      WritesAre(byKey, before);
      var last := if NeedsWrite(byKey, rule) then [WriteOf(byKey, rule)] else [];
      hide RuleKey, ChangeKey, NeedsWrite, WriteOf, WellKeyed;
      forall c, d | c in Writes(byKey, before) && d in last ensures ChangeKey(c) != ChangeKey(d) {
        var i :| 0 <= i < |before| && NeedsWrite(byKey, before[i]) && c == WriteOf(byKey, before[i]);
        KeyOfWrite(byKey, before[i]);
        KeyOfWrite(byKey, rule);
        assert before[i] == desired[i];
      }
      JoinDistinct(Writes(byKey, before), last);
    }
  }

  lemma {:induction false} RemovalsDistinct(rows: seq<Stored>, wanted: set<string>)
    requires forall i, j :: 0 <= i < j < |rows| ==> RuleKey(rows[i].rule) != RuleKey(rows[j].rule)
    ensures DistinctKeys(Removals(rows, wanted))
  {
    if rows != [] {
      var before, row := rows[..|rows| - 1], rows[|rows| - 1];
      RemovalsDistinct(before, wanted);
      RemovalsAre(before, wanted);
      var last := if RuleKey(row.rule) in wanted then [] else [Deactivate(row)];
      hide RuleKey;
      forall c, d | c in Removals(before, wanted) && d in last ensures ChangeKey(c) != ChangeKey(d) {
        var i :| 0 <= i < |before| && RuleKey(before[i].rule) !in wanted && c == Deactivate(before[i]);
        assert before[i] == rows[i];
      }
      JoinDistinct(Removals(before, wanted), last);
    }
  }

  lemma RowsHaveDistinctKeys(rows: seq<Stored>, rules: map<Id, Rule>)
    requires Lists(rows, rules) && UniqueKeys(rules)
    ensures forall i, j :: 0 <= i < j < |rows| ==> RuleKey(rows[i].rule) != RuleKey(rows[j].rule)
  {
    hide RuleKey;
  }

  /** The row found for a key is the active rule with that key. */
  lemma FindsTheRule(rows: seq<Stored>, rules: map<Id, Rule>, key: string)
    requires Lists(rows, rules) && UniqueKeys(rules)
    ensures key in ByKey(rows) <==> exists id :: id in rules && RuleKey(rules[id]) == key
    ensures key in ByKey(rows) ==>
          var row := ByKey(rows)[key]; row.id in rules && rules[row.id] == row.rule && RuleKey(row.rule) == key
    ensures forall rate :: Priced(rules, key, rate) <==> key in ByKey(rows) && ByKey(rows)[key].rule.rate == rate
  {
    hide RuleKey, ByKey;
    ByKeyFinds(rows, key);
  }

  lemma PlanFits(rows: seq<Stored>, rules: map<Id, Rule>, desired: seq<Rule>, c: Change)
    requires Lists(rows, rules) && UniqueKeys(rules) && c in Planned(rows, desired)
    ensures Fits(rules, c)
  {
    hide ByKey, RuleKey, Writes, Removals, NeedsWrite;
    if c in Writes(ByKey(rows), desired) {
      WritesAre(ByKey(rows), desired);
      var i :| 0 <= i < |desired| && NeedsWrite(ByKey(rows), desired[i]) && c == WriteOf(ByKey(rows), desired[i]);
      FindsTheRule(rows, rules, RuleKey(desired[i]));
    } else {
      RemovalsAre(rows, Keys(desired));
    }
  }

  lemma WritesAndRemovalsDiffer(rows: seq<Stored>, desired: seq<Rule>, c: Change, d: Change)
    requires c in Writes(ByKey(rows), desired) && d in Removals(rows, Keys(desired))
    ensures ChangeKey(c) != ChangeKey(d)
  {
    hide ByKey, RuleKey, Writes, Removals, NeedsWrite, WriteOf, WellKeyed;
    ByKeyIsWellKeyed(rows);
    WritesAre(ByKey(rows), desired);
    RemovalsAre(rows, Keys(desired));
    var i :| 0 <= i < |desired| && NeedsWrite(ByKey(rows), desired[i]) && c == WriteOf(ByKey(rows), desired[i]);
    KeyOfWrite(ByKey(rows), desired[i]);
    assert RuleKey(desired[i]) in Keys(desired);
  }

  lemma PlanIsValid(rows: seq<Stored>, rules: map<Id, Rule>, desired: seq<Rule>)
    requires Lists(rows, rules) && UniqueKeys(rules) && UniqueRules(desired)
    ensures ValidPlan(rules, Planned(rows, desired))
  {
    hide ByKey, RuleKey, Writes, Removals, Keys, Fits, ChangeKey, WellKeyed, UniqueKeys, UniqueRules, Lists;
    ByKeyIsWellKeyed(rows);
    RowsHaveDistinctKeys(rows, rules);
    WritesDistinct(ByKey(rows), desired);
    RemovalsDistinct(rows, Keys(desired));
    forall c, d | c in Writes(ByKey(rows), desired)
        && d in Removals(rows, Keys(desired)) ensures ChangeKey(c) != ChangeKey(d) {
      WritesAndRemovalsDiffer(rows, desired, c, d);
    }
    JoinDistinct(Writes(ByKey(rows), desired), Removals(rows, Keys(desired)));
    forall c | c in Planned(rows, desired) ensures Fits(rules, c) {
      PlanFits(rows, rules, desired, c);
    }
  }

  /* ---------- Main results ---------- */

  lemma ByKeyIsWellKeyed(rows: seq<Stored>)
    ensures WellKeyed(ByKey(rows))
  {
    forall key | key in ByKey(rows) ensures RuleKey(ByKey(rows)[key].rule) == key {
      ByKeyFinds(rows, key);
    }
  }

  /** A key of the file has one change in the plan, its rule's write, or none when its rule needs none. */
  lemma PlanOfWanted(rows: seq<Stored>, desired: seq<Rule>, i: nat)
    requires UniqueRules(desired) && i < |desired|
    ensures forall c :: c in Planned(rows, desired) && ChangeKey(c) == RuleKey(desired[i])
                        <==> NeedsWrite(ByKey(rows), desired[i]) && c == WriteOf(ByKey(rows), desired[i])
  {
    var byKey, key := ByKey(rows), RuleKey(desired[i]);
    ByKeyIsWellKeyed(rows);
    WritesAre(byKey, desired);
    RemovalsAre(rows, Keys(desired));
    KeyOfWrite(byKey, desired[i]);
    assert key in Keys(desired);
    hide ByKey, RuleKey, Writes, Removals, NeedsWrite, WriteOf, WellKeyed;
    forall c | c in Planned(rows, desired) && ChangeKey(c) == key ensures NeedsWrite(byKey, desired[i])
        && c == WriteOf(byKey, desired[i]) {
      assert c in Writes(byKey, desired);
      var k :| 0 <= k < |desired| && NeedsWrite(byKey, desired[k]) && c == WriteOf(byKey, desired[k]);
      KeyOfWrite(byKey, desired[k]);
    }
  }

  /** A key that is not in the file has one change in the plan, its row's deactivation, when there is a row. */
  lemma PlanOfUnwanted(rows: seq<Stored>, desired: seq<Rule>, key: string)
    requires key !in Keys(desired)
    ensures forall c :: c in Planned(rows, desired) && ChangeKey(c) == key ==> RateAfter(c).None?
    ensures key in ByKey(rows) <==> exists c :: c in Planned(rows, desired) && ChangeKey(c) == key
  {
    var byKey := ByKey(rows);
    ByKeyIsWellKeyed(rows);
    WritesAre(byKey, desired);
    RemovalsAre(rows, Keys(desired));
    ByKeyFinds(rows, key);
    hide ByKey, RuleKey, Writes, Removals, NeedsWrite, WriteOf, WellKeyed;
    forall c | c in Planned(rows, desired) && ChangeKey(c) == key ensures RateAfter(c).None? {
      if c in Writes(byKey, desired) {
        var k :| 0 <= k < |desired| && NeedsWrite(byKey, desired[k]) && c == WriteOf(byKey, desired[k]);
        KeyOfWrite(byKey, desired[k]);
      }
    }
    forall c | c in Planned(rows, desired) && ChangeKey(c) == key ensures key in byKey {
      if c in Writes(byKey, desired) {
        var k :| 0 <= k < |desired| && NeedsWrite(byKey, desired[k]) && c == WriteOf(byKey, desired[k]);
        KeyOfWrite(byKey, desired[k]);
      }
    }
    if key in byKey {
      var i :| 0 <= i < |rows| && RuleKey(rows[i].rule) == key;
      assert Deactivate(rows[i]) in Planned(rows, desired);
    }
  }

  lemma PlanSets(rows: seq<Stored>, rules: map<Id, Rule>, desired: seq<Rule>, key: string, rate: string)
    requires Lists(rows, rules) && UniqueKeys(rules) && UniqueRules(desired)
    ensures var plan := Planned(rows, desired);
            Wanted(desired, key, rate) <==> if Mentions(plan, key) then SetsTo(plan, key, rate)
                else Priced(rules, key, rate)
  {
    FindsTheRule(rows, rules, key);
    hide ByKey, RuleKey, Planned, UniqueKeys, Lists, Priced, ChangeKey;
    if key in Keys(desired) {
      var i :| 0 <= i < |desired| && RuleKey(desired[i]) == key;
      assert forall k :: 0 <= k < |desired| && RuleKey(desired[k]) == key ==> k == i;
      PlanOfWanted(rows, desired, i);
      assert NeedsWrite(ByKey(rows), desired[i]) ==> WriteOf(ByKey(rows), desired[i]) in Planned(rows, desired);
    } else {
      PlanOfUnwanted(rows, desired, key);
    }
  }

  /** Applying the plan turns the active rules into exactly the file's key-to-rate map, keeps keys unique before and
      after every change, and leaves the rules the file already agrees with untouched, id and all. */
  lemma PlanReachesTheFile(rows: seq<Stored>, rules: map<Id, Rule>, desired: seq<Rule>, newIDs: seq<Id>)
    requires Lists(rows, rules) && UniqueKeys(rules) && UniqueRules(desired)
    requires |newIDs| == |Planned(rows, desired)| && NewIDs(rules, newIDs)
    ensures UniqueThroughout(rules, Planned(rows, desired), newIDs)
    ensures var after := AppliedAll(rules, Planned(rows, desired), newIDs);
            && UniqueKeys(after)
            && (forall key, rate :: Priced(after, key, rate) <==> Wanted(desired, key, rate))
            && (forall id :: id in rules && Wanted(desired, RuleKey(rules[id]), rules[id].rate) ==>
                  id in after && after[id] == rules[id])
  {
    var plan := Planned(rows, desired);
    PlanIsValid(rows, rules, desired);
    PlanApplies(rules, plan, newIDs);
    forall key, rate ensures Wanted(desired, key, rate) <==> if Mentions(plan, key) then SetsTo(plan, key, rate)
        else Priced(rules, key, rate) {
      PlanSets(rows, rules, desired, key, rate);
    }
    forall id | id in rules
        && Wanted(desired, RuleKey(rules[id]), rules[id].rate) ensures !Mentions(plan, RuleKey(rules[id])) {
      AgreedIsUntouched(rows, rules, desired, id);
    }
    hide RuleKey, Planned, UniqueKeys, Lists, Priced, ChangeKey, Mentions, SetsTo, Wanted, UniqueRules, NewIDs,
        ValidPlan;
  }

  lemma AgreedIsUntouched(rows: seq<Stored>, rules: map<Id, Rule>, desired: seq<Rule>, id: Id)
    requires Lists(rows, rules) && UniqueKeys(rules) && UniqueRules(desired)
    requires id in rules && Wanted(desired, RuleKey(rules[id]), rules[id].rate)
    ensures !Mentions(Planned(rows, desired), RuleKey(rules[id]))
  {
    var key := RuleKey(rules[id]);
    FindsTheRule(rows, rules, key);
    var i :| 0 <= i < |desired| && RuleKey(desired[i]) == key && desired[i].rate == rules[id].rate;
    PlanOfWanted(rows, desired, i);
    assert Priced(rules, key, rules[id].rate);
    hide RuleKey, Planned, Lists, ChangeKey, ByKey;
  }

  lemma AgreedPlansNothing(rows: seq<Stored>, rules: map<Id, Rule>, desired: seq<Rule>, key: string)
    requires Lists(rows, rules) && UniqueKeys(rules) && UniqueRules(desired)
    requires forall rate :: Priced(rules, key, rate) <==> Wanted(desired, key, rate)
    ensures !Mentions(Planned(rows, desired), key)
  {
    FindsTheRule(rows, rules, key);
    assert key in ByKey(rows) ==> Priced(rules, key, ByKey(rows)[key].rule.rate);
    hide RuleKey, Planned, ByKey, Lists, ChangeKey, UniqueKeys;
    if key in Keys(desired) {
      var i :| 0 <= i < |desired| && RuleKey(desired[i]) == key;
      assert Wanted(desired, key, desired[i].rate);
      PlanOfWanted(rows, desired, i);
    } else {
      PlanOfUnwanted(rows, desired, key);
    }
  }

  /** Planning again from the result changes nothing. */
  lemma ReplanningIsEmpty(rows: seq<Stored>, rules: map<Id, Rule>, desired: seq<Rule>)
    requires Lists(rows, rules) && UniqueKeys(rules) && UniqueRules(desired)
    requires forall key, rate :: Priced(rules, key, rate) <==> Wanted(desired, key, rate)
    ensures Planned(rows, desired) == []
  {
    var plan := Planned(rows, desired);
    assert |plan| > 0 ==> Mentions(plan, ChangeKey(plan[0]));
    hide RuleKey, Planned, ByKey, Lists, ChangeKey, UniqueKeys, Mentions, Priced, Wanted;
    forall key ensures !Mentions(plan, key) {
      AgreedPlansNothing(rows, rules, desired, key);
    }
  }
}
