/**
 Lists of named entries, searched by name from the front: volumes, volume mounts, init containers, environment
 variables.
 */
module NamedLists {
  import opened Operands

  datatype Named<N, T> = Named(name: N, value: T)

  function Index<N(==), T>(s: seq<Named<N, T>>, name: N): (i: int)
    ensures -1 <= i < |s|
    ensures i >= 0 ==> s[i].name == name && forall j :: 0 <= j < i ==> s[j].name != name
    ensures i < 0 ==> forall j :: 0 <= j < |s| ==> s[j].name != name
  {
    if s == [] then -1
    else if s[0].name == name then 0
    else var i := Index(s[1..], name); if i < 0 then -1 else i + 1
  }

  predicate Has<N(==), T>(s: seq<Named<N, T>>, name: N) {
    Index(s, name) >= 0
  }

  function Lookup<N(==), T>(s: seq<Named<N, T>>, name: N): Option<T> {
    var i := Index(s, name);
    if i < 0 then None else Some(s[i].value)
  }

  function RemoveAt<N(==), T>(s: seq<Named<N, T>>, i: nat): seq<Named<N, T>>
    requires i < |s|
  {
    s[..i] + s[i + 1..]
  }

  function Remove<N(==), T>(s: seq<Named<N, T>>, name: N): seq<Named<N, T>>
    requires Has(s, name)
  {
    RemoveAt(s, Index(s, name))
  }

  function Put<N(==), T>(s: seq<Named<N, T>>, name: N, value: T): seq<Named<N, T>>
    requires Has(s, name)
  {
    s[Index(s, name) := Named(name, value)]
  }

  ghost predicate Once<N, T>(s: seq<Named<N, T>>, name: N) {
    forall i, j :: 0 <= i < j < |s| && s[i].name == name ==> s[j].name != name
  }

  // ---- what each change does to every name ----

  lemma IndexIs<N, T>(s: seq<Named<N, T>>, name: N, i: nat)
    requires i < |s| && s[i].name == name && forall j :: 0 <= j < i ==> s[j].name != name
    ensures Index(s, name) == i
  {
  }

  lemma AppendEffect<N, T>(s: seq<Named<N, T>>, x: Named<N, T>, name: N)
    ensures Lookup(s + [x], name)
            == if Has(s, name) then Lookup(s, name) else if x.name == name then Some(x.value) else None
    ensures Once(s, name) && (x.name == name ==> !Has(s, name)) ==> Once(s + [x], name)
  {
    var t := s + [x];
    if Has(s, name) {
      assert forall j :: 0 <= j < |s| ==> t[j] == s[j];
      IndexIs(t, name, Index(s, name));
    } else if x.name == name {
      assert t[|s|] == x;
      IndexIs(t, name, |s|);
    }
  }

  lemma PutEffect<N, T>(s: seq<Named<N, T>>, at: N, value: T, name: N)
    requires Has(s, at)
    ensures var t := Put(s, at, value);
            && |t| == |s| && Lookup(t, name) == (if name == at then Some(value) else Lookup(s, name))
            && (Once(s, name) ==> Once(t, name))
  {
    var t, k := Put(s, at, value), Index(s, at);
    assert forall j :: 0 <= j < |s| ==> t[j].name == s[j].name && (j != k ==> t[j] == s[j]);
    if Has(s, name) {
      IndexIs(t, name, Index(s, name));
    }
  }

  lemma RemoveEffect<N, T>(s: seq<Named<N, T>>, at: N, name: N)
    requires Has(s, at)
    ensures var t := Remove(s, at);
            && (name != at ==> Lookup(t, name) == Lookup(s, name))
            && (Once(s, at) ==> !Has(t, at))
            && (Once(s, name) ==> Once(t, name))
  {
    var t, k := Remove(s, at), Index(s, at);
    assert forall j :: 0 <= j < |t| ==> t[j] == if j < k then s[j] else s[j + 1];
    if name != at && Has(s, name) {
      var i := Index(s, name);
      if i < k { IndexIs(t, name, i); } else { assert t[i - 1] == s[i]; IndexIs(t, name, i - 1); }
    }
  }

  // Adding an entry under a new name and removing it restores the list, element for element.
  lemma AppendThenRemove<N, T>(s: seq<Named<N, T>>, x: Named<N, T>)
    requires !Has(s, x.name)
    ensures Has(s + [x], x.name) && Remove(s + [x], x.name) == s
  {
    assert (s + [x])[|s|] == x;
    IndexIs(s + [x], x.name, |s|);
  }

  // The loop that searches a list.
  method Find<N(==), T>(s: seq<Named<N, T>>, name: N) returns (position: int)
    ensures position == Index(s, name)
  {
    for i := 0 to |s|
      invariant forall j :: 0 <= j < i ==> s[j].name != name
    {
      if s[i].name == name {
        IndexIs(s, name, i);
        return i;
      }
    }
    position := -1;
  }
}
