/** The flat parameter map shared by all selected artifacts: a JavaScript
    object from parameter name to value, kept here as its entries in
    insertion order, one entry per key. */
module Parameters {
  import opened Values
  import opened Selection

  /** No key occurs twice. */
  predicate UniqueKeys(es: seq<(string, string)>)
  {
    forall i, j :: 0 <= i < j < |es| ==> es[i].0 != es[j].0
  }

  /** A JavaScript object with string keys: its entries in iteration order. */
  type Dict = es: seq<(string, string)> | UniqueKeys(es) witness []

  /** Some entry has the key. */
  predicate HasKey(es: seq<(string, string)>, key: string)
  {
    exists i :: 0 <= i < |es| && es[i].0 == key
  }

  /** `dict[key]`: the value stored under `key`, if any. */
  function Lookup(es: seq<(string, string)>, key: string): (r: Option<string>)
    ensures r.Some? <==> HasKey(es, key)
    ensures r.Some? ==> (key, r.value) in es
  {
    if es == [] then None
    else if es[0].0 == key then Some(es[0].1)
    else
      assert HasKey(es[1..], key) ==> HasKey(es, key) by {
        if HasKey(es[1..], key) {
          var i :| 0 <= i < |es[1..]| && es[1..][i].0 == key;
          assert es[i + 1] == es[1..][i];
        }
      }
      Lookup(es[1..], key)
  }

  /** `dict[key] = value`: the first entry with the key takes the value;
      without one, the entry is appended. */
  function Put(es: seq<(string, string)>, key: string, value: string): (r: seq<(string, string)>)
    ensures (key, value) in r
    ensures |r| == if HasKey(es, key) then |es| else |es| + 1
  {
    if es == [] then [(key, value)]
    else if es[0].0 == key then [(key, value)] + es[1..]
    else [es[0]] + Put(es[1..], key, value)
  }

  /** After `Put` the key maps to the value and every other key keeps its
      value. */
  lemma {:induction false} PutLookup(es: seq<(string, string)>, key: string, value: string, k: string)
    ensures Lookup(Put(es, key, value), key) == Some(value)
    ensures k != key ==> Lookup(Put(es, key, value), k) == Lookup(es, k)
  {
    if es != [] && es[0].0 != key {
      PutLookup(es[1..], key, value, k);
      assert ([es[0]] + Put(es[1..], key, value))[1..] == Put(es[1..], key, value);
    }
  }

  /** An existing key keeps its place and takes the new value. */
  lemma {:induction false} PutExisting(es: seq<(string, string)>, i: nat, key: string, value: string)
    requires i < |es| && es[i].0 == key
    requires forall j :: 0 <= j < i ==> es[j].0 != key
    ensures Put(es, key, value) == es[i := (key, value)]
  {
    if i > 0 {
      PutExisting(es[1..], i - 1, key, value);
      assert [es[0]] + es[1..][i - 1 := (key, value)] == es[i := (key, value)];
    }
  }

  /** A new key is appended at the end. */
  lemma {:induction false} PutNew(es: seq<(string, string)>, key: string, value: string)
    requires !HasKey(es, key)
    ensures Put(es, key, value) == es + [(key, value)]
  {
    if es != [] {
      assert !HasKey(es[1..], key) by {
        forall j | 0 <= j < |es[1..]| ensures es[1..][j].0 != key {
          assert es[1..][j] == es[j + 1];
        }
      }
      PutNew(es[1..], key, value);
      assert [es[0]] + (es[1..] + [(key, value)]) == es + [(key, value)];
    }
  }

  /** In a dictionary, `Put` writes at the key's one position, or appends. */
  lemma PutShape(es: Dict, key: string, value: string)
    ensures forall i :: 0 <= i < |es| && es[i].0 == key ==> Put(es, key, value) == es[i := (key, value)]
    ensures !HasKey(es, key) ==> Put(es, key, value) == es + [(key, value)]
  {
    forall i | 0 <= i < |es| && es[i].0 == key ensures Put(es, key, value) == es[i := (key, value)] {
      PutExisting(es, i, key, value);
    }
    if !HasKey(es, key) {
      PutNew(es, key, value);
    }
  }

  /** `Put` keeps a dictionary a dictionary. */
  lemma PutKeepsUnique(es: Dict, key: string, value: string)
    ensures UniqueKeys(Put(es, key, value))
  {
    if !HasKey(es, key) {
      PutNew(es, key, value);
      var r := es + [(key, value)];
      forall i, j | 0 <= i < j < |r| ensures r[i].0 != r[j].0 {
        assert r[i] == es[i];
        if j < |es| {
          assert r[j] == es[j];
        }
      }
    } else {
      var k :| 0 <= k < |es| && es[k].0 == key;
      PutExisting(es, k, key, value);
      var r := es[k := (key, value)];
      forall i, j | 0 <= i < j < |r| ensures r[i].0 != r[j].0 {
        assert r[i].0 == es[i].0 && r[j].0 == es[j].0;
      }
    }
  }

  /** The value a parameter form shows: the stored value when truthy, else the
      field's default when truthy, else the empty string. */
  function ShownValue(es: seq<(string, string)>, p: ParamSpec): (v: string)
    ensures TruthyString(Lookup(es, p.name)) ==> v == Lookup(es, p.name).value
    ensures !TruthyString(Lookup(es, p.name)) && TruthyString(p.default) ==> v == p.default.value
    ensures v == "" <==> !TruthyString(Lookup(es, p.name)) && !TruthyString(p.default)
  {
    var stored := Lookup(es, p.name);
    if TruthyString(stored) then stored.value
    else if TruthyString(p.default) then p.default.value
    else ""
  }

  /** After `setValue(p.name, value)` the field shows `value`, unless `value`
      is empty, in which case it falls back to the default. */
  lemma ShownValueAfterSet(es: seq<(string, string)>, p: ParamSpec, value: string)
    ensures ShownValue(Put(es, p.name, value), p)
         == if value != "" then value else ShownValue([], p)
  {
    PutLookup(es, p.name, value, p.name);
  }

  /** Setting one name never changes what a field of another name shows. */
  lemma ShownValueOtherName(es: seq<(string, string)>, p: ParamSpec, name: string, value: string)
    requires name != p.name
    ensures ShownValue(Put(es, name, value), p) == ShownValue(es, p)
  {
    PutLookup(es, name, value, p.name);
  }

  /** The namespace is flat: two fields of the same name, of any two
      artifacts, show the same stored value once one is set. */
  lemma SharedNamespace(es: seq<(string, string)>, p: ParamSpec, q: ParamSpec, value: string)
    requires p.name == q.name && value != ""
    ensures ShownValue(Put(es, p.name, value), p) == ShownValue(Put(es, p.name, value), q) == value
  {
    PutLookup(es, p.name, value, p.name);
  }

  /** The parameter object that the wizard owns and the configuration page
      mutates in place. */
  class ParamMap {
    var entries: Dict

    constructor ()
      ensures entries == []
    {
      entries := [];
    }

    constructor FromEntries(es: Dict)
      ensures entries == es
    {
      entries := es;
    }

    function Get(key: string): (value: Option<string>)
      reads this
    {
      Lookup(entries, key)
    }

    /** `parameters[name] = value`. */
    method SetValue(name: string, value: string)
      modifies this
      ensures Get(name) == Some(value)
      ensures forall k :: k != name ==> Get(k) == old(Get(k))
      ensures forall i :: 0 <= i < |old(entries)| && old(entries)[i].0 == name ==> entries == old(entries)[i := (name, value)]
      ensures !HasKey(old(entries), name) ==> entries == old(entries) + [(name, value)]
    {
      PutKeepsUnique(entries, name, value);
      PutShape(entries, name, value);
      forall k ensures Lookup(Put(entries, name, value), name) == Some(value)
                   && (k != name ==> Lookup(Put(entries, name, value), k) == Lookup(entries, k)) {
        PutLookup(entries, name, value, k);
      }
      entries := Put(entries, name, value);
    }
  }
}
