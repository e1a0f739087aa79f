/**
 The mutable form of the settings edit: a JSON object as its keys in order and a map
 of values, changed in place, and the loop over the rules; proved equal to `Edit`.
 */
module OrderedObjects {
  import opened Records
  import opened SettingsEdit

  predicate NoRepeats(keys: seq<Name>) {
    forall i, j :: 0 <= i < j < |keys| ==> keys[i] != keys[j]
  }

  function FieldsOf(keys: seq<Name>, vals: map<Name, Json>): seq<Field>
    requires forall k :: k in keys ==> k in vals
  {
    if keys == [] then [] else [Field(keys[0], vals[keys[0]])] + FieldsOf(keys[1..], vals)
  }

  function Dropped(keys: seq<Name>, key: Name): seq<Name> {
    if keys == [] then [] else if keys[0] == key then Dropped(keys[1..], key) else [keys[0]] + Dropped(keys[1..], key)
  }

  lemma {:induction false} FieldsKeep(keys: seq<Name>, vals: map<Name, Json>, vals': map<Name, Json>)
    requires forall k :: k in keys ==> k in vals && k in vals' && vals[k] == vals'[k]
    ensures FieldsOf(keys, vals) == FieldsOf(keys, vals')
  {
    if keys != [] {
      FieldsKeep(keys[1..], vals, vals');
    }
  }

  lemma {:induction false} FieldsSet(keys: seq<Name>, vals: map<Name, Json>, key: Name, value: Json)
    requires NoRepeats(keys) && forall k :: k in keys ==> k in vals
    ensures SetField(FieldsOf(keys, vals), key, value) ==
      FieldsOf(if key in keys then keys else keys + [key], vals[key := value])
  {
    if keys == [] {
      assert keys + [key] == [key] && [key][1..] == [];
    } else {
      var fs := FieldsOf(keys, vals);
      assert fs[1..] == FieldsOf(keys[1..], vals);
      if keys[0] == key {
        FieldsKeep(keys[1..], vals, vals[key := value]);
      } else {
        FieldsSet(keys[1..], vals, key, value);
        assert (keys + [key])[1..] == keys[1..] + [key];
      }
    }
  }

  lemma {:induction false} FieldsDrop(keys: seq<Name>, vals: map<Name, Json>, key: Name)
    requires NoRepeats(keys) && forall k :: k in keys ==> k in vals
    ensures NoRepeats(Dropped(keys, key)) && forall k :: k in Dropped(keys, key) <==> k in keys && k != key
    ensures Without(FieldsOf(keys, vals), key) == FieldsOf(Dropped(keys, key), vals - {key})
  {
    if keys != [] {
      assert FieldsOf(keys, vals)[1..] == FieldsOf(keys[1..], vals);
      FieldsDrop(keys[1..], vals, key);
      var rest := Dropped(keys[1..], key);
      if keys[0] != key {
        assert ([keys[0]] + rest)[1..] == rest;
        assert forall j :: 0 <= j < |rest| ==> rest[j] in keys[1..];
      }
    }
  }

  lemma {:induction false} FieldsLookup(keys: seq<Name>, vals: map<Name, Json>, key: Name)
    requires forall k :: k in keys ==> k in vals
    ensures ValueOf(FieldsOf(keys, vals), key) == if key in keys then Some(vals[key]) else None
  {
    if keys != [] {
      assert FieldsOf(keys, vals)[1..] == FieldsOf(keys[1..], vals);
      FieldsLookup(keys[1..], vals, key);
    }
  }

  lemma {:induction false} FieldsAppend(keys: seq<Name>, vals: map<Name, Json>, f: Field)
    requires f.key !in keys && forall k :: k in keys ==> k in vals
    ensures FieldsOf(keys + [f.key], vals[f.key := f.value]) == FieldsOf(keys, vals) + [f]
  {
    if keys == [] {
      assert keys + [f.key] == [f.key] && [f.key][1..] == [];
    } else {
      assert (keys + [f.key])[1..] == keys[1..] + [f.key];
      FieldsAppend(keys[1..], vals, f);
    }
  }

  class OrderedObject {
    var keys: seq<Name>
    var vals: map<Name, Json>

    ghost predicate Valid()
      reads this
    {
      NoRepeats(keys) && forall k :: k in vals <==> k in keys
    }

    ghost function Fields(): seq<Field>
      requires Valid()
      reads this
    {
      FieldsOf(keys, vals)
    }

    constructor ()
      ensures Valid() && keys == [] && Fields() == []
    {
      keys, vals := [], map[];
    }

    /** A repeated key is no object: which of the two counts is nobody's guess. */
    method Parse(fs: seq<Field>) returns (ok: bool)
      requires Valid() && keys == []
      modifies this
      ensures Valid() && (ok <==> Distinct(fs)) && (ok ==> Fields() == fs)
    {
      var i := 0;
      while i < |fs|
        invariant 0 <= i <= |fs| && Valid() && Fields() == fs[..i] && Distinct(fs[..i])
        invariant |keys| == i && forall j :: 0 <= j < i ==> keys[j] == fs[j].key
      {
        if fs[i].key in vals {
          var j :| 0 <= j < i && keys[j] == fs[i].key;
          assert fs[j].key == fs[i].key;
          return false;
        }
        FieldsAppend(keys, vals, fs[i]);
        assert fs[..i + 1] == fs[..i] + [fs[i]];
        keys, vals := keys + [fs[i].key], vals[fs[i].key := fs[i].value];
        i := i + 1;
      }
      assert fs[..i] == fs;
      return true;
    }

    method Set(key: Name, value: Json)
      requires Valid()
      modifies this
      ensures Valid() && Fields() == SetField(old(Fields()), key, value)
    {
      FieldsSet(keys, vals, key, value);
      if key !in vals {
        keys := keys + [key];
      }
      vals := vals[key := value];
    }

    method Remove(key: Name)
      requires Valid()
      modifies this
      ensures Valid() && Fields() == Without(old(Fields()), key)
    {
      FieldsDrop(keys, vals, key);
      if key in vals {
        vals := vals - {key};
        keys := Dropped(keys, key);
      } else {
        DropAbsent(keys, key);
        assert vals - {key} == vals;
      }
    }

    /** Only the named keys are looked at before a change. */
    method Lookup(key: Name) returns (value: Option<Json>)
      requires Valid()
      ensures value == ValueOf(Fields(), key)
    {
      FieldsLookup(keys, vals, key);
      value := if key in vals then Some(vals[key]) else None;
    }
  }

  lemma {:induction false} DropAbsent(keys: seq<Name>, key: Name)
    requires key !in keys
    ensures Dropped(keys, key) == keys
  {
    if keys != [] {
      DropAbsent(keys[1..], key);
    }
  }

  /** A settings file: no content counts as an empty object. */
  function RootOf(file: Option<Json>): Option<seq<Field>> {
    match file
    case None => Some([])
    case Some(Object(fs)) => if Distinct(fs) then Some(fs) else None
    case Some(_) => None
  }

  /** The rules, one by one, into a list of allow entries that grows and shrinks. */
  method EditList(allow: seq<Json>, rules: seq<Name>, add: bool) returns (c: Change)
    ensures c == EditRules(allow, rules, add)
  {
    var entries, changed := allow, [];
    var i := 0;
    while i < |rules|
      invariant 0 <= i <= |rules| && Change(entries, changed) == EditRules(allow, rules[..i], add)
    {
      assert rules[..i + 1][..i] == rules[..i];
      var at := FirstMatch(entries, rules[i]);
      if add != (at < |entries|) {
        if add {
          entries := entries + [Str(rules[i])];
        } else {
          entries := entries[..at] + entries[at + 1..];
        }
        changed := changed + [rules[i]];
      }
      i := i + 1;
    }
    assert rules[..i] == rules;
    c := Change(entries, changed);
  }

  /** Puts the list back, dropping the key setup created once it is empty. */
  method WriteBack(root: OrderedObject, perms: OrderedObject, allow: seq<Json>, add: bool, prune: Created)
    returns (fields: seq<Field>)
    requires root.Valid() && perms.Valid() && root != perms
    modifies root, perms
    ensures fields == Rebuild(old(root.Fields()), old(perms.Fields()), allow, add, prune)
  {
    if !add && allow == [] && prune in {AllowKey, PermissionsKey} {
      perms.Remove(ALLOW);
    } else {
      perms.Set(ALLOW, List(allow));
    }
    if !add && |perms.keys| == 0 && prune == PermissionsKey {
      root.Remove(PERMISSIONS);
    } else {
      root.Set(PERMISSIONS, Object(FieldsOf(perms.keys, perms.vals)));
    }
    fields := FieldsOf(root.keys, root.vals);
  }

  method EditClaudeAllow(file: Option<Json>, rules: seq<Name>, add: bool, prune: Created) returns (r: Edited)
    ensures r == match RootOf(file) { case Some(root) => Edit(root, rules, add, prune) case None => BadShape }
  {
    hide Rebuild, EditRules, FieldsOf;
    if file.Some? && !file.value.Object? {
      return BadShape;
    }
    var root := new OrderedObject();
    var fields := if file.Some? then file.value.fields else [];
    var ok := root.Parse(fields);
    if !ok {
      return BadShape;
    }
    assert RootOf(file) == Some(fields);
    var perms := new OrderedObject();
    var created := PermissionsKey;
    var stored := root.Lookup(PERMISSIONS);
    if stored.Some? {
      if !stored.value.Object? {
        return BadShape;
      }
      ok := perms.Parse(stored.value.fields);
      if !ok {
        return BadShape;
      }
      created := AllowKey;
    }
    var allow: seq<Json> := [];
    var listed := perms.Lookup(ALLOW);
    if listed.Some? {
      if !listed.value.List? {
        return BadShape;
      }
      allow, created := listed.value.items, Nothing;
    }
    assert Find(fields) == Found(perms.Fields(), allow, created);
    var c := EditList(allow, rules, add);
    if c.changed == [] {
      return Edited(fields, [], Nothing);
    }
    var rebuilt := WriteBack(root, perms, c.allow, add, prune);
    return Edited(rebuilt, c.changed, if add then created else Nothing);
  }
}
