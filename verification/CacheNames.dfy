/**
 The order in which a rolling upgrade treats the caches of the source cluster: the two internal caches first.
 */
module CacheNames {
  import opened Operands

  // The internal caches of a server release, as its client names them (___protobuf_metadata and ___script_cache).
  datatype Client = Client(metadata: string, script: string) {
    predicate Valid() {
      metadata != script && metadata != "" && script != ""
    }

    predicate Internal(name: string) {
      name == metadata || name == script
    }
  }

  // The user caches, in their original order.
  function UserCaches(c: Client, names: seq<string>): (r: seq<string>)
    ensures |r| <= |names|
  {
    if names == [] then []
    else
      var last := names[|names| - 1];
      UserCaches(c, names[..|names| - 1]) + (if c.Internal(last) then [] else [last])
  }

  // The array has one slot per listed name; the internal caches take the first two whether or not they are listed.
  predicate Fits(c: Client, names: seq<string>) {
    |names| >= 2 && |UserCaches(c, names)| + 2 <= |names|
  }

  // None stands for an index out of range, which panics; slots that no name fills stay empty.
  function Ordered(c: Client, names: seq<string>): Option<seq<string>> {
    if Fits(c, names)
    then Some([c.metadata, c.script] + UserCaches(c, names) + seq(|names| - |UserCaches(c, names)| - 2, _ => ""))
    else None
  }

  lemma {:induction false} UserCachesAre(c: Client, names: seq<string>, n: string)
    ensures multiset(UserCaches(c, names))[n] == if c.Internal(n) then 0 else multiset(names)[n]
  {
    if names != [] {
      var front, last := names[..|names| - 1], names[|names| - 1];
      UserCachesAre(c, front, n);
      assert names == front + [last];
      assert UserCaches(c, names) == UserCaches(c, front) + (if c.Internal(last) then [] else [last]);
    }
  }

  lemma {:induction false} UserCachesCount(c: Client, names: seq<string>)
    requires c.Valid()
    ensures |UserCaches(c, names)| + multiset(names)[c.metadata] + multiset(names)[c.script] == |names|
  {
    if names != [] {
      var front, last := names[..|names| - 1], names[|names| - 1];
      UserCachesCount(c, front);
      assert names == front + [last];
      assert multiset(names) == multiset(front) + multiset{last};
    }
  }

  lemma UserCachesSplit(c: Client, names: seq<string>)
    requires c.Valid()
    ensures multiset(UserCaches(c, names)) == multiset(names)[c.metadata := 0][c.script := 0]
    ensures |UserCaches(c, names)| + multiset(names)[c.metadata] + multiset(names)[c.script] == |names|
    ensures forall n :: n in UserCaches(c, names) ==> !c.Internal(n)
  {
    UserCachesCount(c, names);
    forall n ensures multiset(UserCaches(c, names))[n] == if c.Internal(n) then 0 else multiset(names)[n] {
      UserCachesAre(c, names, n);
    }
    forall n | n in UserCaches(c, names) ensures !c.Internal(n) {
      assert n in multiset(UserCaches(c, names));
    }
  }

  // Ordering the names panics exactly when the internal caches are listed less than twice altogether.
  lemma PanicsWhen(c: Client, names: seq<string>)
    requires c.Valid()
    ensures Ordered(c, names).None? <==> multiset(names)[c.metadata] + multiset(names)[c.script] < 2
  {
    UserCachesSplit(c, names);
  }

  lemma {:induction false} NoUserCaches(c: Client, names: seq<string>)
    requires forall k :: 0 <= k < |names| ==> c.Internal(names[k])
    ensures UserCaches(c, names) == []
  {
    if names != [] {
      NoUserCaches(c, names[..|names| - 1]);
    }
  }

  lemma {:induction false} OnlyUserCaches(c: Client, names: seq<string>)
    requires forall k :: 0 <= k < |names| ==> !c.Internal(names[k])
    ensures UserCaches(c, names) == names
  {
    if names != [] {
      OnlyUserCaches(c, names[..|names| - 1]);
    }
  }

  lemma {:induction false} UserCachesOfConcat(c: Client, a: seq<string>, b: seq<string>)
    ensures UserCaches(c, a + b) == UserCaches(c, a) + UserCaches(c, b)
  {
    if b == [] {
      assert a + b == a;
    } else {
      var front := b[..|b| - 1];
      UserCachesOfConcat(c, a, front);
      assert (a + b)[..|a + b| - 1] == a + front;
    }
  }

  lemma Slots(n: nat)
    ensures multiset(seq(n, _ => "")) == multiset{}[("") := n]
  {
    var s := seq(n, _ => "");
    if n > 0 {
      Slots(n - 1);
      assert s == seq(n - 1, _ => "") + [""];
    }
  }

  lemma OrderedCounts(c: Client, names: seq<string>)
    requires c.Valid() && Fits(c, names)
    ensures var slots := |names| - |UserCaches(c, names)| - 2;
            multiset(Ordered(c, names).value)
            == multiset(names)[c.metadata := 1][c.script := 1] + multiset{}[("") := slots]
  {
    var users := UserCaches(c, names);
    var slots := |names| - |users| - 2;
    var internal, blanks := [c.metadata, c.script], seq(slots, _ => "");
    UserCachesSplit(c, names);
    Slots(slots);
    assert multiset(internal) == multiset{c.metadata, c.script};
    assert Ordered(c, names).value == internal + users + blanks;
    assert multiset(internal + users + blanks) == multiset(internal + users) + multiset(blanks);
    assert multiset(internal + users) == multiset(names)[c.metadata := 1][c.script := 1] by {
      assert multiset(internal + users) == multiset(internal) + multiset(users);
    }
  }

  lemma InternalIsNotUser(c: Client)
    ensures UserCaches(c, [c.metadata, c.script]) == []
  {
    NoUserCaches(c, [c.metadata, c.script]);
  }

  lemma InternalFirst(c: Client, users: seq<string>)
    requires UserCaches(c, users) == users
    ensures UserCaches(c, [c.metadata, c.script] + users) == users
  {
    InternalIsNotUser(c);
    UserCachesOfConcat(c, [c.metadata, c.script], users);
  }

  lemma OrderedSlots(c: Client, names: seq<string>)
    requires Fits(c, names)
    ensures var r, users := Ordered(c, names).value, UserCaches(c, names);
            && |r| == |names| && r[0] == c.metadata && r[1] == c.script
            && (forall j :: 0 <= j < |users| ==> r[j + 2] == users[j])
            && (forall j :: |users| + 2 <= j < |r| ==> r[j] == "")
  {
  }

  lemma SameCachesWhen(c: Client, names: seq<string>)
    requires c.Valid() && Fits(c, names)
    ensures multiset(Ordered(c, names).value) == multiset(names) <==>
            multiset(names)[c.metadata] == 1 && multiset(names)[c.script] == 1
  {
    UserCachesSplit(c, names);
    OrderedCounts(c, names);
    var r := multiset(Ordered(c, names).value);
    assert r[c.metadata] == 1 && r[c.script] == 1;
  }

  lemma UsersInOrder(c: Client, names: seq<string>)
    requires c.Valid() && Fits(c, names) && multiset(names)[c.metadata] == 1 && multiset(names)[c.script] == 1
    ensures var r := Ordered(c, names).value; r[2..] == UserCaches(c, names) == UserCaches(c, r)
  {
    var r, users := Ordered(c, names).value, UserCaches(c, names);
    UserCachesSplit(c, names);
    assert |users| + 2 == |names|;
    assert r == [c.metadata, c.script] + users;
    OnlyUserCaches(c, users);
    InternalFirst(c, users);
  }

  // The result lists the same caches exactly when each internal cache is listed once; it then starts with the two
  // internal caches and keeps the user caches in their original order.
  lemma OrderedIsPermutationWhen(c: Client, names: seq<string>)
    requires c.Valid()
    requires Ordered(c, names).Some?
    ensures var r := Ordered(c, names).value;
            && |r| == |names| && r[0] == c.metadata && r[1] == c.script
            && (multiset(r) == multiset(names) <==> multiset(names)[c.metadata] == multiset(names)[c.script] == 1)
            && (multiset(r) == multiset(names) ==> r[2..] == UserCaches(c, names) == UserCaches(c, r))
  {
    var r := Ordered(c, names).value;
    SameCachesWhen(c, names);
    OrderedSlots(c, names);
    if multiset(r) == multiset(names) {
      UsersInOrder(c, names);
    }
  }

  // The loop: an array of as many slots as names, filled with an index variable.
  method OrderNames(c: Client, names: seq<string>) returns (orderedNames: Option<seq<string>>)
    ensures orderedNames == Ordered(c, names)
  {
    if |names| < 2 {
      return None;
    }
    var ordered := new string[|names|](_ => "");
    ordered[0] := c.metadata;
    ordered[1] := c.script;
    var i := 2;
    var k := 0;
    ghost var users: seq<string> := [];
    while k < |names|
      invariant 0 <= k <= |names|
      invariant users == UserCaches(c, names[..k])
      invariant i == |users| + 2 <= |names|
      invariant ordered[0] == c.metadata && ordered[1] == c.script
      invariant forall j :: 0 <= j < |users| ==> ordered[j + 2] == users[j]
      invariant forall j :: i <= j < |names| ==> ordered[j] == ""
    {
      assert names[..k + 1][..k] == names[..k];
      var name := names[k];
      if name != ordered[0] && name != ordered[1] {
        if i >= ordered.Length {
          UserCachesOfConcat(c, names[..k + 1], names[k + 1..]);
          assert names[..k + 1] + names[k + 1..] == names;
          return None;
        }
        ordered[i] := name;
        i := i + 1;
        users := users + [name];
      }
      k := k + 1;
    }
    assert names[..k] == names;
    OrderedSlots(c, names);
    assert ordered[..] == Ordered(c, names).value;
    orderedNames := Some(ordered[..]);
  }
}
