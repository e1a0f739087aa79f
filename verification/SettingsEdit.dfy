/**
 Adding rules to permissions.allow in a settings object and taking them out again:
 the undo restores the very object, key order included, and nothing else is touched.
 */
module SettingsEdit {
  import opened Records

  type Name = nat

  /** A JSON value up to white space. An object is its fields in order. */
  datatype Json = Null | Str(text: Name) | List(items: seq<Json>) | Object(fields: seq<Field>) | Other(token: nat)

  datatype Field = Field(key: Name, value: Json)

  const PERMISSIONS: Name := 0
  const ALLOW: Name := 1
  /** The empty string, which a null entry reads as. */
  const BLANK: Name := 2

  // ----- Ordered objects -----

  predicate Distinct(fs: seq<Field>) {
    forall i, j :: 0 <= i < j < |fs| ==> fs[i].key != fs[j].key
  }

  function ValueOf(fs: seq<Field>, key: Name): Option<Json> {
    if fs == [] then None
    else if fs[0].key == key then Some(fs[0].value)
    else ValueOf(fs[1..], key)
  }

  /** Replaces the value in place, or adds the field at the end. */
  function SetField(fs: seq<Field>, key: Name, value: Json): seq<Field> {
    if fs == [] then [Field(key, value)]
    else if fs[0].key == key then [Field(key, value)] + fs[1..]
    else [fs[0]] + SetField(fs[1..], key, value)
  }

  function Without(fs: seq<Field>, key: Name): seq<Field> {
    if fs == [] then []
    else if fs[0].key == key then Without(fs[1..], key)
    else [fs[0]] + Without(fs[1..], key)
  }

  lemma {:induction false} SetThenGet(fs: seq<Field>, key: Name, value: Json)
    ensures ValueOf(SetField(fs, key, value), key) == Some(value)
    ensures Without(SetField(fs, key, value), key) == Without(fs, key)
  {
    if fs != [] && fs[0].key != key {
      SetThenGet(fs[1..], key, value);
      assert SetField(fs, key, value)[1..] == SetField(fs[1..], key, value);
    } else if fs != [] {
      assert SetField(fs, key, value)[1..] == fs[1..];
    }
  }

  lemma {:induction false} SetBack(fs: seq<Field>, key: Name, value: Json, old_: Json)
    requires ValueOf(fs, key) == Some(old_)
    ensures SetField(SetField(fs, key, value), key, old_) == fs
  {
    if fs[0].key != key {
      SetBack(fs[1..], key, value, old_);
      assert SetField(fs, key, value)[1..] == SetField(fs[1..], key, value);
    } else {
      assert SetField(fs, key, value)[1..] == fs[1..];
    }
  }

  lemma {:induction false} SetThenRemoveNew(fs: seq<Field>, key: Name, value: Json)
    requires ValueOf(fs, key) == None
    ensures Without(SetField(fs, key, value), key) == fs
    ensures Without(fs, key) == fs
  {
    if fs != [] {
      SetThenRemoveNew(fs[1..], key, value);
      assert SetField(fs, key, value)[1..] == SetField(fs[1..], key, value);
    }
  }

  // ----- The rules -----

  predicate Reads(item: Json, rule: Name) {
    (item.Str? && item.text == rule) || (item.Null? && rule == BLANK)
  }

  /** The index of the first entry that reads as the rule, or the length. */
  function FirstMatch(allow: seq<Json>, rule: Name): (at: nat)
    ensures at <= |allow| && (at < |allow| ==> Reads(allow[at], rule))
    ensures forall i :: 0 <= i < at ==> !Reads(allow[i], rule)
  {
    if allow == [] then 0
    else if Reads(allow[0], rule) then 0
    else 1 + FirstMatch(allow[1..], rule)
  }

  datatype Change = Change(allow: seq<Json>, changed: seq<Name>)

  function EditRule(c: Change, rule: Name, add: bool): Change {
    var at := FirstMatch(c.allow, rule);
    if add == (at < |c.allow|) then c
    else if add then Change(c.allow + [Str(rule)], c.changed + [rule])
    else Change(c.allow[..at] + c.allow[at + 1..], c.changed + [rule])
  }

  function EditRules(allow: seq<Json>, rules: seq<Name>, add: bool): Change {
    if rules == [] then Change(allow, [])
    else EditRule(EditRules(allow, rules[..|rules| - 1], add), rules[|rules| - 1], add)
  }

  // ----- The whole edit -----

  datatype Created = Nothing | AllowKey | PermissionsKey

  datatype Edited = Edited(root: seq<Field>, changed: seq<Name>, created: Created) | BadShape

  /** The permissions object and its allow list, and the key an edit would have to create. */
  datatype Found = Found(perms: seq<Field>, allow: seq<Json>, missing: Created) | Unreadable

  function Find(root: seq<Field>): Found {
    match ValueOf(root, PERMISSIONS)
    case None => Found([], [], PermissionsKey)
    case Some(Object(perms)) =>
      if !Distinct(perms) then Unreadable
      else (
        match ValueOf(perms, ALLOW)
        case None => Found(perms, [], AllowKey)
        case Some(List(allow)) => Found(perms, allow, Nothing)
        case Some(_) => Unreadable)
    case Some(_) => Unreadable
  }

  function Rebuild(root: seq<Field>, perms: seq<Field>, allow: seq<Json>, add: bool, prune: Created): seq<Field> {
    var perms' := if !add && allow == [] && prune != Nothing then Without(perms, ALLOW)
                  else SetField(perms, ALLOW, List(allow));
    if !add && perms' == [] && prune == PermissionsKey then Without(root, PERMISSIONS)
    else SetField(root, PERMISSIONS, Object(perms'))
  }

  function Edit(root: seq<Field>, rules: seq<Name>, add: bool, prune: Created): Edited {
    match Find(root)
    case Unreadable => BadShape
    case Found(perms, allow, missing) =>
      var c := EditRules(allow, rules, add);
      if c.changed == [] then Edited(root, [], Nothing)
      else Edited(Rebuild(root, perms, c.allow, add, prune), c.changed, if add then missing else Nothing)
  }

  // ----- Adding, and undoing what was added -----

  function Strings(rules: seq<Name>): seq<Json> {
    if rules == [] then [] else Strings(rules[..|rules| - 1]) + [Str(rules[|rules| - 1])]
  }

  predicate AllNew(allow: seq<Json>, rules: seq<Name>) {
    && (forall i :: 0 <= i < |rules| ==> FirstMatch(allow, rules[i]) == |allow|)
    && (forall i, j :: 0 <= i < j < |rules| ==> rules[i] != rules[j])
  }

  lemma {:induction false} StringsAre(rules: seq<Name>)
    ensures |Strings(rules)| == |rules| && forall i :: 0 <= i < |rules| ==> Strings(rules)[i] == Str(rules[i])
  {
    if rules != [] {
      StringsAre(rules[..|rules| - 1]);
    }
  }

  lemma MatchStays(allow: seq<Json>, rules: seq<Name>, rule: Name)
    requires FirstMatch(allow, rule) < |allow| || rule in rules
    ensures FirstMatch(allow + Strings(rules), rule) < |allow + Strings(rules)|
  {
    var all := allow + Strings(rules);
    StringsAre(rules);
    if FirstMatch(allow, rule) < |allow| {
      assert Reads(all[FirstMatch(allow, rule)], rule);
    } else {
      var i :| 0 <= i < |rules| && rules[i] == rule;
      assert Reads(all[|allow| + i], rule);
    }
  }

  lemma StringsOfLast(rules: seq<Name>, rule: Name)
    ensures Strings(rules + [rule]) == Strings(rules) + [Str(rule)]
  {
    assert (rules + [rule])[..|rules|] == rules;
  }

  /** A rule nothing reads as is appended, and stays new beside the earlier ones. */
  lemma AppendOne(allow: seq<Json>, changed: seq<Name>, rule: Name)
    requires AllNew(allow, changed)
    ensures var c := EditRule(Change(allow + Strings(changed), changed), rule, true);
      c.allow == allow + Strings(c.changed) && AllNew(allow, c.changed)
  {
    hide FirstMatch, Strings;
    StringsOfLast(changed, rule);
    assert (allow + Strings(changed)) + [Str(rule)] == allow + (Strings(changed) + [Str(rule)]);
    if FirstMatch(allow, rule) < |allow| || rule in changed {
      MatchStays(allow, changed, rule);
    }
  }

  /** What an add appends: new rules, each once. */
  lemma {:induction false} AddAppends(allow: seq<Json>, rules: seq<Name>)
    ensures var c := EditRules(allow, rules, true);
      c.allow == allow + Strings(c.changed) && AllNew(allow, c.changed)
  {
    hide EditRule, FirstMatch;
    if rules == [] {
      assert allow + Strings([]) == allow;
    } else {
      AddAppends(allow, rules[..|rules| - 1]);
      AppendOne(allow, EditRules(allow, rules[..|rules| - 1], true).changed, rules[|rules| - 1]);
    }
  }

  lemma EditAfter(allow: seq<Json>, before: seq<Name>, changed: seq<Name>, rule: Name, add: bool)
    ensures var c := EditRule(Change(allow, changed), rule, add);
      EditRule(Change(allow, before + changed), rule, add) == Change(c.allow, before + c.changed)
  {
    assert before + (changed + [rule]) == (before + changed) + [rule];
  }

  lemma EditLast(allow: seq<Json>, init: seq<Name>, rule: Name, add: bool)
    ensures EditRules(allow, init + [rule], add) == EditRule(EditRules(allow, init, add), rule, add)
  {
    assert (init + [rule])[..|init|] == init;
  }

  /** The edit of a list of rules, taken apart at its first rule. */
  lemma {:induction false} RemoveFirst(allow: seq<Json>, rule: Name, rest: seq<Name>, add: bool)
    ensures var first := EditRule(Change(allow, []), rule, add); var c := EditRules(first.allow, rest, add);
      EditRules(allow, [rule] + rest, add) == Change(c.allow, first.changed + c.changed)
  {
    hide EditRule;
    var first := EditRule(Change(allow, []), rule, add);
    if rest == [] {
      EditLast(allow, [], rule, add);
      assert [rule] + rest == [] + [rule] && first.changed + [] == first.changed;
    } else {
      var init, last := rest[..|rest| - 1], rest[|rest| - 1];
      RemoveFirst(allow, rule, init, add);
      var c := EditRules(first.allow, init, add);
      EditLast(allow, [rule] + init, last, add);
      EditLast(first.allow, init, last, add);
      assert init + [last] == rest && ([rule] + init) + [last] == [rule] + rest;
      EditAfter(c.allow, first.changed, c.changed, last, add);
    }
  }

  lemma StringsOfFirst(rule: Name, rest: seq<Name>)
    ensures Strings([rule] + rest) == [Str(rule)] + Strings(rest)
  {
    hide Strings;
    StringsAre([rule] + rest);
    StringsAre(rest);
  }

  lemma FirstAfter(allow: seq<Json>, item: Json, back: seq<Json>, rule: Name)
    requires FirstMatch(allow, rule) == |allow| && Reads(item, rule)
    ensures FirstMatch(allow + ([item] + back), rule) == |allow|
  {
    hide FirstMatch;
    var all := allow + ([item] + back);
    assert all[|allow|] == item;
    assert forall i :: 0 <= i < |allow| ==> all[i] == allow[i];
  }

  /** The first appended rule is the first entry that reads as it, and taking it out leaves the rest. */
  lemma RemoveOne(allow: seq<Json>, rule: Name, rest: seq<Name>)
    requires FirstMatch(allow, rule) == |allow|
    ensures EditRule(Change(allow + Strings([rule] + rest), []), rule, false) == Change(allow + Strings(rest), [rule])
  {
    hide FirstMatch, Strings;
    var back := Strings(rest);
    StringsOfFirst(rule, rest);
    FirstAfter(allow, Str(rule), back, rule);
    var all := allow + ([Str(rule)] + back);
    assert all[..|allow|] == allow && all[|allow| + 1..] == back;
    assert [] + [rule] == [rule];
  }

  /** Taking the appended rules out again leaves the list as it was. */
  lemma {:induction false} RemoveRestores(allow: seq<Json>, rules: seq<Name>)
    requires AllNew(allow, rules)
    ensures EditRules(allow + Strings(rules), rules, false) == Change(allow, rules)
  {
    if rules == [] {
      assert allow + Strings(rules) == allow;
    } else {
      hide EditRule, EditRules, FirstMatch, Strings;
      var rule, rest := rules[0], rules[1..];
      assert [rule] + rest == rules;
      RemoveOne(allow, rule, rest);
      RemoveRestores(allow, rest);
      RemoveFirst(allow + Strings(rules), rule, rest, false);
    }
  }

  /** After an add the edited list is found where it was put. */
  lemma AddedIsFound(root: seq<Field>, rules: seq<Name>)
    requires Find(root).Found? && EditRules(Find(root).allow, rules, true).changed != []
    ensures var found := Find(root); var c := EditRules(found.allow, rules, true);
      var perms := SetField(found.perms, ALLOW, List(c.allow));
      && Edit(root, rules, true, Nothing).root == SetField(root, PERMISSIONS, Object(perms))
      && Find(Edit(root, rules, true, Nothing).root) == Found(perms, c.allow, Nothing)
  {
    var found := Find(root);
    var c := EditRules(found.allow, rules, true);
    var perms := SetField(found.perms, ALLOW, List(c.allow));
    SetThenGet(root, PERMISSIONS, Object(perms));
    SetThenGet(found.perms, ALLOW, List(c.allow));
    SetKeepsDistinct(found.perms, ALLOW, List(c.allow));
  }

  /** Rebuilding with the old list, pruning the key that was created, gives the old object. */
  lemma RebuildRestores(root: seq<Field>, allow: seq<Json>)
    requires Find(root).Found?
    ensures var found := Find(root); var perms := SetField(found.perms, ALLOW, List(allow));
      Rebuild(SetField(root, PERMISSIONS, Object(perms)), perms, found.allow, false, found.missing) == root
  {
    var found := Find(root);
    var perms := SetField(found.perms, ALLOW, List(allow));
    match found.missing
    case PermissionsKey =>
      SetThenRemoveNew(root, PERMISSIONS, Object(perms));
      SetThenRemoveNew([], ALLOW, List(allow));
    case AllowKey =>
      SetThenRemoveNew(found.perms, ALLOW, List(allow));
      SetBack(root, PERMISSIONS, Object(perms), Object(found.perms));
    case Nothing =>
      SetBack(found.perms, ALLOW, List(allow), List(found.allow));
      SetBack(root, PERMISSIONS, Object(perms), Object(found.perms));
  }

  /**
   Undo: removing what an add reports changed, with the key it reports created as the
   one to prune, restores the object, key order and all.
   */
  lemma UndoRestores(root: seq<Field>, rules: seq<Name>, prune: Created)
    requires Edit(root, rules, true, prune).Edited? && Edit(root, rules, true, prune).changed != []
    ensures var e := Edit(root, rules, true, prune);
      Edit(e.root, e.changed, false, e.created) == Edited(root, e.changed, Nothing)
  {
    hide Rebuild, Find, Without, SetField;
    EditByParts(root, rules, true, prune);
    var found := Find(root);
    var c := EditRules(found.allow, rules, true);
    AddAppends(found.allow, rules);
    RemoveRestores(found.allow, c.changed);
    AddedIsFound(root, rules);
    RebuildRestores(root, c.allow);
    AddIgnoresPrune(root, rules, prune);
    EditByParts(Edit(root, rules, true, prune).root, c.changed, false, found.missing);
  }

  lemma AddIgnoresPrune(root: seq<Field>, rules: seq<Name>, prune: Created)
    ensures Edit(root, rules, true, prune) == Edit(root, rules, true, Nothing)
  {
  }

  lemma EditByParts(root: seq<Field>, rules: seq<Name>, add: bool, prune: Created)
    requires Edit(root, rules, add, prune).Edited?
    ensures Find(root).Found?
    ensures var found := Find(root); var c := EditRules(found.allow, rules, add);
      Edit(root, rules, add, prune) == if c.changed == [] then Edited(root, [], Nothing)
        else Edited(Rebuild(root, found.perms, c.allow, add, prune), c.changed, if add then found.missing else Nothing)
  {
  }

  lemma {:induction false} SetKeys(fs: seq<Field>, key: Name, value: Json, i: nat)
    requires i < |SetField(fs, key, value)|
    ensures if i < |fs| then SetField(fs, key, value)[i].key == fs[i].key
            else i == |fs| && SetField(fs, key, value)[i].key == key && forall j :: 0 <= j < |fs| ==> fs[j].key != key
  {
    if fs != [] && fs[0].key != key && i > 0 {
      SetKeys(fs[1..], key, value, i - 1);
      if i == |fs| {
        assert forall j :: 0 < j < |fs| ==> fs[j] == fs[1..][j - 1];
      }
    }
  }

  lemma SetKeepsDistinct(fs: seq<Field>, key: Name, value: Json)
    requires Distinct(fs)
    ensures Distinct(SetField(fs, key, value))
  {
    var all := SetField(fs, key, value);
    forall i, j | 0 <= i < j < |all|
      ensures all[i].key != all[j].key
    {
      SetKeys(fs, key, value, i);
      SetKeys(fs, key, value, j);
    }
  }

  /** Adding twice is adding once. */
  lemma AddIsIdempotent(root: seq<Field>, rules: seq<Name>, prune: Created)
    requires Edit(root, rules, true, prune).Edited?
    ensures var e := Edit(root, rules, true, prune); Edit(e.root, rules, true, prune) == Edited(e.root, [], Nothing)
  {
    hide Find, Rebuild, SetField, Without, EditRules;
    EditByParts(root, rules, true, prune);
    if EditRules(Find(root).allow, rules, true).changed != [] {
      AddIgnoresPrune(root, rules, prune);
      AddedIsFound(root, rules);
      NothingLeftToAdd(Find(root).allow, rules);
    }
  }

  lemma {:induction false} AllThere(allow: seq<Json>, rules: seq<Name>)
    ensures var c := EditRules(allow, rules, true); forall r :: r in rules ==> FirstMatch(c.allow, r) < |c.allow|
  {
    if rules != [] {
      var init, rule := rules[..|rules| - 1], rules[|rules| - 1];
      AllThere(allow, init);
      var before, c := EditRules(allow, init, true), EditRules(allow, rules, true);
      forall r | r in rules
        ensures FirstMatch(c.allow, r) < |c.allow|
      {
        if r in init {
          var at := FirstMatch(before.allow, r);
          assert Reads(c.allow[at], r);
        } else {
          assert r == rule;
          if FirstMatch(before.allow, rule) == |before.allow| {
            assert Reads(c.allow[|before.allow|], rule);
          }
        }
      }
    }
  }

  lemma {:induction false} NothingNew(allow: seq<Json>, rules: seq<Name>)
    requires forall r :: r in rules ==> FirstMatch(allow, r) < |allow|
    ensures EditRules(allow, rules, true) == Change(allow, [])
  {
    if rules != [] {
      NothingNew(allow, rules[..|rules| - 1]);
    }
  }

  lemma NothingLeftToAdd(allow: seq<Json>, rules: seq<Name>)
    ensures var c := EditRules(allow, rules, true); EditRules(c.allow, rules, true) == Change(c.allow, [])
  {
    AllThere(allow, rules);
    NothingNew(EditRules(allow, rules, true).allow, rules);
  }

  /** An add changes exactly the rules nothing read as before. */
  lemma {:induction false} AddChangesExactly(allow: seq<Json>, rules: seq<Name>, rule: Name)
    ensures rule in EditRules(allow, rules, true).changed <==> rule in rules && FirstMatch(allow, rule) == |allow|
  {
    hide FirstMatch, Strings;
    if rules != [] {
      var init, last := rules[..|rules| - 1], rules[|rules| - 1];
      AddChangesExactly(allow, init, rule);
      AddAppends(allow, init);
      var c := EditRules(allow, init, true);
      AppendedIsFound(allow, c.changed, last);
      assert rule in rules <==> rule in init || rule == last;
    }
  }

  lemma AppendedIsFound(allow: seq<Json>, changed: seq<Name>, rule: Name)
    ensures var all := allow + Strings(changed);
      FirstMatch(all, rule) < |all| <==> FirstMatch(allow, rule) < |allow| || rule in changed
  {
    var all := allow + Strings(changed);
    StringsAre(changed);
    if FirstMatch(allow, rule) < |allow| || rule in changed {
      MatchStays(allow, changed, rule);
    } else {
      forall i | 0 <= i < |all|
        ensures !Reads(all[i], rule)
      {
        assert all[i] == if i < |allow| then allow[i] else Str(changed[i - |allow|]);
      }
    }
  }

  // ----- Removing from any list -----

  /** How many entries read as the rule. */
  function Count(allow: seq<Json>, rule: Name): nat {
    if allow == [] then 0 else (if Reads(allow[0], rule) then 1 else 0) + Count(allow[1..], rule)
  }

  /** The entries that read as none of the rules. */
  function Others(allow: seq<Json>, rules: seq<Name>): seq<Json> {
    if allow == [] then []
    else (if exists r :: r in rules && Reads(allow[0], r) then [] else [allow[0]]) + Others(allow[1..], rules)
  }

  lemma {:induction false} CountOfBoth(a: seq<Json>, b: seq<Json>, rule: Name)
    ensures Count(a + b, rule) == Count(a, rule) + Count(b, rule)
  {
    if a == [] {
      assert a + b == b;
    } else {
      assert (a + b)[1..] == a[1..] + b;
      CountOfBoth(a[1..], b, rule);
    }
  }

  lemma {:induction false} OthersOfBoth(a: seq<Json>, b: seq<Json>, rules: seq<Name>)
    ensures Others(a + b, rules) == Others(a, rules) + Others(b, rules)
  {
    if a == [] {
      assert a + b == b;
    } else {
      assert (a + b)[1..] == a[1..] + b;
      OthersOfBoth(a[1..], b, rules);
    }
  }

  lemma {:induction false} NoneCounts(allow: seq<Json>, rule: Name)
    ensures Count(allow, rule) == 0 <==> FirstMatch(allow, rule) == |allow|
  {
    if allow != [] {
      NoneCounts(allow[1..], rule);
    }
  }

  lemma CountWithout(front: seq<Json>, item: Json, back: seq<Json>, x: Name)
    ensures Count(front + [item] + back, x) == Count(front + back, x) + (if Reads(item, x) then 1 else 0)
  {
    CountOfBoth(front, [item] + back, x);
    assert front + ([item] + back) == front + [item] + back;
    assert ([item] + back)[1..] == back;
    CountOfBoth(front, back, x);
  }

  lemma OthersWithout(front: seq<Json>, item: Json, back: seq<Json>, rules: seq<Name>)
    requires exists r :: r in rules && Reads(item, r)
    ensures Others(front + [item] + back, rules) == Others(front + back, rules)
  {
    OthersOfBoth(front, [item] + back, rules);
    assert front + ([item] + back) == front + [item] + back;
    assert ([item] + back)[1..] == back;
    OthersOfBoth(front, back, rules);
  }

  /** One rule taken out: one entry that reads as it goes, or nothing. */
  lemma RemoveOneOf(c: Change, rule: Name, x: Name, rules: seq<Name>)
    requires rule in rules
    ensures var after := EditRule(c, rule, false);
      && Count(after.allow, x) == Count(c.allow, x) - (if x == rule && Count(c.allow, x) > 0 then 1 else 0)
      && Others(after.allow, rules) == Others(c.allow, rules)
      && after.changed == c.changed + (if Count(c.allow, rule) > 0 then [rule] else [])
  {
    hide Count, Others;
    NoneCounts(c.allow, rule);
    var at := FirstMatch(c.allow, rule);
    if at < |c.allow| {
      var front, item, back := c.allow[..at], c.allow[at], c.allow[at + 1..];
      assert c.allow == front + [item] + back;
      CountWithout(front, item, back, x);
      OthersWithout(front, item, back, rules);
    }
  }

  function Least(a: nat, b: nat): nat { if a < b then a else b }

  /**
   Removing takes one copy out for each rule, as long as there is one: for every list and
   every sequence of rules, the entries that read as a rule are that many fewer, the rules
   reported are exactly the copies taken, and all other entries stay in their order.
   */
  lemma {:induction false} RemoveExactly(allow: seq<Json>, rules: seq<Name>, x: Name, all: seq<Name>)
    requires forall r :: r in rules ==> r in all
    ensures var c := EditRules(allow, rules, false); var taken := Least(Count(allow, x), multiset(rules)[x]);
      && Count(c.allow, x) == Count(allow, x) - taken && multiset(c.changed)[x] == taken
      && Others(c.allow, all) == Others(allow, all)
  {
    if rules != [] {
      hide EditRule, Count, Others;
      var init, last := rules[..|rules| - 1], rules[|rules| - 1];
      assert rules == init + [last];
      RemoveExactly(allow, init, x, all);
      var c := EditRules(allow, init, false);
      RemoveOneOf(c, last, x, all);
    }
  }

  /** The entries at the kept places, in their order. */
  predicate LeftFrom(allow: seq<Json>, left: seq<Json>, kept: seq<nat>) {
    && |kept| == |left|
    && (forall i :: 0 <= i < |kept| ==> kept[i] < |allow| && left[i] == allow[kept[i]])
    && (forall i, j :: 0 <= i < j < |kept| ==> kept[i] < kept[j])
  }

  lemma ItemDropped(allow: seq<Json>, left: seq<Json>, kept: seq<nat>, at: nat)
    requires LeftFrom(allow, left, kept) && at < |left|
    ensures LeftFrom(allow, left[..at] + left[at + 1..], kept[..at] + kept[at + 1..])
  {
  }

  /** What is left is the old list with some entries gone: `kept` says where each one was. */
  lemma {:induction false} RemoveKeepsOrder(allow: seq<Json>, rules: seq<Name>) returns (kept: seq<nat>)
    ensures var c := EditRules(allow, rules, false);
      LeftFrom(allow, c.allow, kept) && |c.allow| + |c.changed| == |allow|
  {
    if rules == [] {
      kept := seq(|allow|, i => i);
    } else {
      hide FirstMatch, LeftFrom;
      var init, last := rules[..|rules| - 1], rules[|rules| - 1];
      kept := RemoveKeepsOrder(allow, init);
      var c := EditRules(allow, init, false);
      var at := FirstMatch(c.allow, last);
      if at < |c.allow| {
        ItemDropped(allow, c.allow, kept, at);
        kept := kept[..at] + kept[at + 1..];
      }
    }
  }

  lemma {:induction false} NothingToRemove(allow: seq<Json>, rules: seq<Name>)
    requires forall r :: r in rules ==> FirstMatch(allow, r) == |allow|
    ensures EditRules(allow, rules, false) == Change(allow, [])
  {
    if rules != [] {
      NothingToRemove(allow, rules[..|rules| - 1]);
    }
  }

  /** Rules no entry reads as: nothing changes, and nothing is reported. */
  lemma RemoveOfAbsent(root: seq<Field>, rules: seq<Name>, prune: Created)
    requires Find(root).Found?
    requires forall i, r :: 0 <= i < |Find(root).allow| && r in rules ==> !Reads(Find(root).allow[i], r)
    ensures Edit(root, rules, false, prune) == Edited(root, [], Nothing)
  {
    NothingToRemove(Find(root).allow, rules);
  }

  /** An edit is refused exactly for a permissions value or an allow value of another shape, or a repeated key. */
  lemma RefusedExactly(root: seq<Field>, rules: seq<Name>, add: bool, prune: Created)
    ensures Edit(root, rules, add, prune).BadShape? <==>
      var perms := ValueOf(root, PERMISSIONS);
      perms.Some? && (perms.value.Object? && Distinct(perms.value.fields) ==>
        var allow := ValueOf(perms.value.fields, ALLOW); allow.Some? && !allow.value.List?)
  {
  }

  /** Every other key of the root, and of permissions, keeps its value and its place. */
  lemma OtherKeysSurvive(root: seq<Field>, rules: seq<Name>, add: bool, prune: Created)
    requires Edit(root, rules, add, prune).Edited?
    ensures var e := Edit(root, rules, add, prune);
      && Without(e.root, PERMISSIONS) == Without(root, PERMISSIONS)
      && Find(e.root).Found? && Without(Find(e.root).perms, ALLOW) == Without(Find(root).perms, ALLOW)
  {
    hide Rebuild, Find;
    EditByParts(root, rules, add, prune);
    var found := Find(root);
    var c := EditRules(found.allow, rules, add);
    if c.changed != [] {
      RebuildKeepsOthers(root, c.allow, add, prune);
    }
  }

  lemma RebuildKeepsOthers(root: seq<Field>, allow: seq<Json>, add: bool, prune: Created)
    requires Find(root).Found?
    ensures var rebuilt := Rebuild(root, Find(root).perms, allow, add, prune);
      && Without(rebuilt, PERMISSIONS) == Without(root, PERMISSIONS)
      && Find(rebuilt).Found? && Without(Find(rebuilt).perms, ALLOW) == Without(Find(root).perms, ALLOW)
  {
    var found := Find(root);
    var perms := if !add && allow == [] && prune != Nothing then Without(found.perms, ALLOW)
                 else SetField(found.perms, ALLOW, List(allow));
    SetThenGet(root, PERMISSIONS, Object(perms));
    SetThenGet(found.perms, ALLOW, List(allow));
    SetKeepsDistinct(found.perms, ALLOW, List(allow));
    RemovedIsGone(root, PERMISSIONS);
    RemovedIsGone(found.perms, ALLOW);
  }

  lemma {:induction false} RemovedIsGone(fs: seq<Field>, key: Name)
    ensures ValueOf(Without(fs, key), key) == None && Without(Without(fs, key), key) == Without(fs, key)
    ensures Distinct(fs) ==> Distinct(Without(fs, key))
    ensures forall f :: f in Without(fs, key) ==> f in fs
  {
    if fs != [] {
      RemovedIsGone(fs[1..], key);
      assert Distinct(fs) ==> Distinct(fs[1..]);
      var rest := Without(fs[1..], key);
      if fs[0].key != key {
        assert Without(fs, key) == [fs[0]] + rest && ([fs[0]] + rest)[1..] == rest;
        assert forall j :: 0 <= j < |rest| ==> rest[j] in fs[1..];
      }
    }
  }
}
