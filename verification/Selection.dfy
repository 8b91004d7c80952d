/** The list of selected artifact descriptors: an ordered list keyed by
    `name`, maintained by `add_artifact` and `remove_artifact`. */
module Selection {
  import opened Values

  /** One editable field of an artifact. */
  datatype ParamSpec = ParamSpec(name: string, default: Option<string>)

  /** An artifact as the catalog describes it. */
  datatype Descriptor = Descriptor(name: string, parameters: seq<ParamSpec>)

  /** Some entry of `s` carries the name `n`. */
  predicate HasName(s: seq<Descriptor>, n: string)
  {
    exists i :: 0 <= i < |s| && s[i].name == n
  }

  /** No two entries share a name. */
  ghost predicate UniqueNames(s: seq<Descriptor>)
  {
    forall i, j :: 0 <= i < j < |s| ==> s[i].name != s[j].name
  }

  /** `r` is obtained from `s` by deleting entries, the rest in their order. */
  ghost predicate IsSubsequence(r: seq<Descriptor>, s: seq<Descriptor>)
  {
    if r == [] then true
    else if s == [] then false
    else if r[0] == s[0] then IsSubsequence(r[1..], s[1..])
    else IsSubsequence(r, s[1..])
  }

  /** `remove_artifact`: drop every entry named `name`, keep every other
      entry, as many times as it occurred and in its order. */
  function RemoveArtifact(s: seq<Descriptor>, name: string): (r: seq<Descriptor>)
    ensures forall x: Descriptor :: multiset(r)[x] == if x.name == name then 0 else multiset(s)[x]
    ensures !HasName(r, name)
  {
    if s == [] then []
    else
      assert s == [s[0]] + s[1..];
      if s[0].name != name then [s[0]] + RemoveArtifact(s[1..], name)
      else RemoveArtifact(s[1..], name)
  }

  /** The entries that `RemoveArtifact` keeps are entries of the list it was
      given. */
  lemma RemoveKeepsMembers(s: seq<Descriptor>, name: string, x: Descriptor)
    requires x in RemoveArtifact(s, name)
    ensures x in s && x.name != name
  {
    assert multiset(RemoveArtifact(s, name))[x] > 0;
  }

  /** `RemoveArtifact` keeps the surviving entries in their original order. */
  lemma {:induction false} RemoveIsSubsequence(s: seq<Descriptor>, name: string)
    ensures IsSubsequence(RemoveArtifact(s, name), s)
  {
    if s != [] {
      RemoveIsSubsequence(s[1..], name);
      var rest := RemoveArtifact(s[1..], name);
      if s[0].name == name && rest != [] {
        RemoveKeepsMembers(s[1..], name, rest[0]);
      }
    }
  }

  /** A removal adds no name. */
  lemma RemoveAddsNoName(s: seq<Descriptor>, name: string, n: string)
    requires !HasName(s, n)
    ensures !HasName(RemoveArtifact(s, name), n)
  {
    var r := RemoveArtifact(s, name);
    forall i | 0 <= i < |r| ensures r[i].name != n {
      RemoveKeepsMembers(s, name, r[i]);
    }
  }

  /** Putting an entry whose name the list lacks in front of it. */
  lemma PrependFreshName(x: Descriptor, s: seq<Descriptor>)
    requires UniqueNames(s) && !HasName(s, x.name)
    ensures UniqueNames([x] + s)
  {
    forall i, j | 0 <= i < j < |[x] + s| ensures ([x] + s)[i].name != ([x] + s)[j].name {
      assert ([x] + s)[j] == s[j - 1];
      if i > 0 {
        assert ([x] + s)[i] == s[i - 1];
      }
    }
  }

  /** A list unique by name stays unique after a removal. */
  lemma {:induction false} RemoveKeepsUnique(s: seq<Descriptor>, name: string)
    ensures UniqueNames(s) ==> UniqueNames(RemoveArtifact(s, name))
  {
    if s != [] && UniqueNames(s) {
      var tail := s[1..];
      assert UniqueNames(tail);
      RemoveKeepsUnique(tail, name);
      if s[0].name != name {
        assert !HasName(tail, s[0].name);
        RemoveAddsNoName(tail, name, s[0].name);
        var rest := RemoveArtifact(tail, name);
        assert RemoveArtifact(s, name) == [s[0]] + rest;
        PrependFreshName(s[0], rest);
      }
    }
  }

  /** `add_artifact`: the new descriptor goes last, every older entry with
      the same name is dropped, and the other entries keep their order. */
  function AddArtifact(s: seq<Descriptor>, x: Descriptor): (r: seq<Descriptor>)
    ensures |r| > 0 && r[|r| - 1] == x
    ensures forall i :: 0 <= i < |r| - 1 ==> r[i].name != x.name
    ensures forall y: Descriptor :: y.name != x.name ==> multiset(r)[y] == multiset(s)[y]
    ensures IsSubsequence(r[..|r| - 1], s)
    ensures UniqueNames(s) ==> UniqueNames(r)
  {
    var rest := RemoveArtifact(s, x.name);
    var r := rest + [x];
    assert r[..|r| - 1] == rest;
    RemoveIsSubsequence(s, x.name);
    RemoveKeepsUnique(s, x.name);
    AppendFreshName(rest, x);
    assert multiset(r) == multiset(rest) + multiset{x};
    r
  }

  /** Appending an entry whose name the list lacks. */
  lemma AppendFreshName(s: seq<Descriptor>, x: Descriptor)
    requires !HasName(s, x.name)
    ensures forall i :: 0 <= i < |s| ==> (s + [x])[i].name != x.name
    ensures UniqueNames(s) ==> UniqueNames(s + [x])
  {
  }

  /** `onSelect`: a checked row is added, an unchecked row removed. A
      checked row is then the only entry with its name, and either way the
      entries with other names are exactly those before. */
  function OnSelect(s: seq<Descriptor>, row: Descriptor, isSelect: bool): (r: seq<Descriptor>)
    ensures HasName(r, row.name) <==> isSelect
    ensures isSelect ==> r[|r| - 1] == row
    ensures isSelect ==> forall i :: 0 <= i < |r| - 1 ==> r[i].name != row.name
    ensures RemoveArtifact(r, row.name) == RemoveArtifact(s, row.name)
    ensures UniqueNames(s) ==> UniqueNames(r)
  {
    RemoveKeepsUnique(s, row.name);
    if isSelect then
      RemoveAfterAdd(s, row);
      AddArtifact(s, row)
    else
      RemoveIdempotent(s, row.name);
      RemoveArtifact(s, row.name)
  }

  /** The names of the selection, in selection order. */
  function Names(s: seq<Descriptor>): (r: seq<string>)
    ensures |r| == |s| && forall i :: 0 <= i < |s| ==> r[i] == s[i].name
    ensures forall n :: n in r <==> HasName(s, n)
  {
    var r := seq(|s|, i requires 0 <= i < |s| => s[i].name);
    assert forall n :: n in r ==> HasName(s, n) by {
      forall n | n in r ensures HasName(s, n) {
        var i :| 0 <= i < |r| && r[i] == n;
        assert s[i].name == n;
      }
    }
    r
  }

  /** Removing a name that no entry carries changes nothing. */
  lemma {:induction false} RemoveAbsent(s: seq<Descriptor>, name: string)
    requires !HasName(s, name)
    ensures RemoveArtifact(s, name) == s
  {
    if s != [] {
      assert !HasName(s[1..], name) by {
        forall i | 0 <= i < |s[1..]| ensures s[1..][i].name != name {
          assert s[1..][i] == s[i + 1];
        }
      }
      RemoveAbsent(s[1..], name);
      assert s[0].name != name;
      assert s == [s[0]] + s[1..];
    }
  }

  /** Removing twice is removing once. */
  lemma {:induction false} RemoveIdempotent(s: seq<Descriptor>, name: string)
    ensures RemoveArtifact(RemoveArtifact(s, name), name) == RemoveArtifact(s, name)
  {
    RemoveAbsent(RemoveArtifact(s, name), name);
  }

  /** Removing distributes over concatenation. */
  lemma {:induction false} RemoveAppend(a: seq<Descriptor>, b: seq<Descriptor>, name: string)
    ensures RemoveArtifact(a + b, name) == RemoveArtifact(a, name) + RemoveArtifact(b, name)
  {
    if a == [] {
      assert a + b == b;
    } else {
      var ab := a + b;
      assert ab != [] && ab[0] == a[0] && ab[1..] == a[1..] + b;
      RemoveAppend(a[1..], b, name);
      var tail := RemoveArtifact(a[1..], name) + RemoveArtifact(b, name);
      if a[0].name != name {
        calc {
          RemoveArtifact(ab, name);
          [a[0]] + RemoveArtifact(a[1..] + b, name);
          [a[0]] + tail;
          ([a[0]] + RemoveArtifact(a[1..], name)) + RemoveArtifact(b, name);
        }
      }
    }
  }

  /** Adding an artifact and then removing it by name is the same as only
      removing it. */
  lemma {:induction false} RemoveAfterAdd(s: seq<Descriptor>, x: Descriptor)
    ensures RemoveArtifact(AddArtifact(s, x), x.name) == RemoveArtifact(s, x.name)
  {
    var rest := RemoveArtifact(s, x.name);
    RemoveAppend(rest, [x], x.name);
    assert RemoveArtifact([x], x.name) == [] by {
      assert [x][1..] == [];
    }
    RemoveIdempotent(s, x.name);
    assert rest + [] == rest;
  }

  /** Adding the same artifact twice is adding it once. */
  lemma {:induction false} AddIdempotent(s: seq<Descriptor>, x: Descriptor)
    ensures AddArtifact(AddArtifact(s, x), x) == AddArtifact(s, x)
  {
    RemoveAfterAdd(s, x);
  }

  /** Adding one artifact never disturbs the entries carrying another name:
      removing an unrelated name commutes with adding. */
  lemma {:induction false} AddCommutesWithOtherRemove(s: seq<Descriptor>, x: Descriptor, name: string)
    requires name != x.name
    ensures RemoveArtifact(AddArtifact(s, x), name) == AddArtifact(RemoveArtifact(s, name), x)
  {
    RemoveAppend(RemoveArtifact(s, x.name), [x], name);
    assert RemoveArtifact([x], name) == [x] by {
      assert [x][1..] == [];
    }
    RemoveCommutes(s, x.name, name);
  }

  /** Removing two names in either order gives the same list. */
  lemma {:induction false} RemoveCommutes(s: seq<Descriptor>, m: string, n: string)
    ensures RemoveArtifact(RemoveArtifact(s, m), n) == RemoveArtifact(RemoveArtifact(s, n), m)
  {
    if s != [] {
      RemoveCommutes(s[1..], m, n);
    }
  }
}
