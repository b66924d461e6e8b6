/**
 Moving the caches of one cluster to another: each cache of the source is created on the target and connected to it,
 and later its data are fetched and the connection is removed. Any call can fail, and the whole is then run again.
 */
module CacheMigration {
  import opened ApiCalls
  import opened Operands
  import opened CacheNames

  datatype Migration = Untouched | Synced | Drained

  // A cache as the target server holds it. `creates` and `adds` count the Create and AddSource calls that took effect,
  // `Drained` means that SyncData and then DisconnectSource took effect since the last of them.
  datatype Cache = Cache(present: bool, connected: bool, migration: Migration, creates: nat, adds: nat)

  type Caches = map<string, Cache>

  function Look(caches: Caches, name: string): Cache {
    if name in caches then caches[name] else Cache(false, false, Untouched, 0, 0)
  }

  datatype CacheCall = Exists | Config | Create | SourceConnected | AddSource | SyncData | DisconnectSource

  type Faults = map<(string, CacheCall), Outcome>

  function Of(f: Faults, name: string, call: CacheCall): Outcome {
    if (name, call) in f then f[(name, call)] else Ok
  }

  function Created(c: Cache): Cache {
    c.(present := true, creates := c.creates + 1)
  }

  function Connected(c: Cache): Cache {
    c.(connected := true, adds := c.adds + 1, migration := Untouched)
  }

  function Fetched(c: Cache): Cache {
    c.(migration := Synced)
  }

  function Disconnected(c: Cache): Cache {
    c.(connected := false, migration := if c.migration == Untouched then Untouched else Drained)
  }

  // A call that changes a cache.
  function Change(c: Cache, next: Cache, o: Outcome): Cache {
    if o == Failed then c else next
  }

  const INTERNAL_PREFIX := "org.infinispan"

  // The server creates these caches itself.
  predicate BuiltIn(name: string) {
    INTERNAL_PREFIX <= name
  }

  // First part of a ConnectCaches iteration: the cache is created unless it exists.
  function CreateIfAbsent(name: string, c: Cache, f: Faults): (Cache, bool) {
    if BuiltIn(name) then (c, true)
    else if Of(f, name, Exists) != Ok then (c, false)
    else if c.present then (c, true)
    else if Of(f, name, Config) != Ok then (c, false)
    else (Change(c, Created(c), Of(f, name, Create)), Of(f, name, Create) == Ok)
  }

  // Second part: it is connected to the source unless it is connected.
  function ConnectIfAbsent(name: string, c: Cache, f: Faults): (Cache, bool) {
    if Of(f, name, SourceConnected) != Ok then (c, false)
    else if c.connected then (c, true)
    else (Change(c, Connected(c), Of(f, name, AddSource)), Of(f, name, AddSource) == Ok)
  }

  function ConnectOne(name: string, c: Cache, f: Faults): (Cache, bool) {
    var (c1, created) := CreateIfAbsent(name, c, f);
    if !created then (c1, false) else ConnectIfAbsent(name, c1, f)
  }

  function SyncOne(name: string, c: Cache, f: Faults): (Cache, bool) {
    var c1 := Change(c, Fetched(c), Of(f, name, SyncData));
    if Of(f, name, SyncData) != Ok then (c1, false)
    else (Change(c1, Disconnected(c1), Of(f, name, DisconnectSource)), Of(f, name, DisconnectSource) == Ok)
  }

  datatype Job = Connecting | Syncing

  function Treat(job: Job, name: string, c: Cache, f: Faults): (Cache, bool) {
    if job == Connecting then ConnectOne(name, c, f) else SyncOne(name, c, f)
  }

  // Both loops: the caches are treated in order, up to the first error.
  function TreatAll(job: Job, names: seq<string>, k: nat, caches: Caches, f: Faults): (Caches, bool)
    requires k <= |names|
    decreases |names| - k
  {
    if k == |names| then (caches, true)
    else
      var (c, ok) := Treat(job, names[k], Look(caches, names[k]), f);
      var next := caches[names[k] := c];
      if ok then TreatAll(job, names, k + 1, next, f) else (next, false)
  }

  datatype Result = Done | Error | Panicked

  // ConnectCaches and SyncCaches: `names` is what the source lists, None when it cannot be asked.
  function Migrate(job: Job, client: Client, names: Option<seq<string>>, caches: Caches, f: Faults): (Caches, Result) {
    if names.None? then (caches, Error)
    else match Ordered(client, names.value)
      case None => (caches, Panicked)
      case Some(ordered) => var (next, ok) := TreatAll(job, ordered, 0, caches, f); (next, if ok then Done else Error)
  }

  // ---- what the two jobs achieve ----

  predicate Ready(name: string, c: Cache) {
    c.connected && (BuiltIn(name) || c.present)
  }

  predicate Finished(job: Job, name: string, c: Cache) {
    if job == Connecting then Ready(name, c) else !c.connected && c.migration == Drained
  }

  // A job that ends without an error has finished every cache it was given, and it never undoes one; it always ends
  // without an error when no call fails.
  lemma {:induction false} TreatAllFinishes(job: Job, names: seq<string>, k: nat, caches: Caches, f: Faults)
    requires k <= |names|
    requires forall j :: 0 <= j < k ==> Finished(job, names[j], Look(caches, names[j]))
    ensures var (next, ok) := TreatAll(job, names, k, caches, f);
            && (ok ==> forall j :: 0 <= j < |names| ==> Finished(job, names[j], Look(next, names[j])))
            && (f == map[] ==> ok)
    decreases |names| - k
  {
    if k < |names| {
      var name := names[k];
      var (c, ok) := Treat(job, name, Look(caches, name), f);
      if ok {
        assert Finished(job, name, c);
        TreatAllFinishes(job, names, k + 1, caches[name := c], f);
      }
    }
  }

  // ---- what becomes of one cache ----

  lemma BuiltInMeansPrefix(name: string)
    ensures BuiltIn(name) <==> |name| >= |INTERNAL_PREFIX| && name[..|INTERNAL_PREFIX|] == INTERNAL_PREFIX
  {
  }

  // The call goes well: the faults name only those that do not.
  ghost predicate Succeeds(f: Faults, name: string, call: CacheCall) {
    (name, call) in f ==> f[(name, call)] == Ok
  }

  // The cache is there.
  predicate Present(caches: Caches, name: string) {
    name in caches && caches[name].present
  }

  predicate Linked(caches: Caches, name: string) {
    name in caches && caches[name].connected
  }

  // Connecting a cache creates it exactly if it is neither there nor the server's own, and connects it exactly if it
  // was not connected; it completes exactly when every call this takes succeeds. A new connection has fetched nothing
  // yet.
  lemma ConnectEffect(name: string, caches: Caches, f: Faults)
    ensures var (c, ok) := ConnectOne(name, Look(caches, name), f);
            var creating, adding := !BuiltIn(name) && !Present(caches, name), !Linked(caches, name);
            && (ok <==>
                  && (BuiltIn(name) || Succeeds(f, name, Exists))
                  && (creating ==> Succeeds(f, name, Config) && Succeeds(f, name, Create))
                  && Succeeds(f, name, SourceConnected) && (adding ==> Succeeds(f, name, AddSource)))
            && (ok ==>
                  && c.connected && (c.present <==> creating || Present(caches, name))
                  && c.creates == (if name in caches then caches[name].creates else 0) + (if creating then 1 else 0)
                  && c.adds == (if name in caches then caches[name].adds else 0) + (if adding then 1 else 0)
                  && (adding ==> c.migration == Untouched))
  {
  }

  // Moving the data of a cache fetches them and then removes the connection, which stays while they have not been
  // fetched.
  lemma SyncEffect(name: string, caches: Caches, f: Faults)
    requires Linked(caches, name)
    ensures var before, (c, ok) := caches[name], SyncOne(name, Look(caches, name), f);
            && (ok <==> Succeeds(f, name, SyncData) && Succeeds(f, name, DisconnectSource))
            && (ok ==> !c.connected && c.migration == Drained)
            && (!Succeeds(f, name, SyncData) ==> c.connected)
            && ((name, SyncData) in f && f[(name, SyncData)] == Failed ==> c == before)
            && c == before.(connected := c.connected, migration := c.migration)
  {
  }

  // A completed loop over distinct names has treated each of them once, and touched no other cache.
  lemma {:induction false} EachIsTreatedOnce(job: Job, names: seq<string>, k: nat, caches: Caches, f: Faults)
    requires k <= |names| && forall i, j :: 0 <= i < j < |names| ==> names[i] != names[j]
    ensures var (next, ok) := TreatAll(job, names, k, caches, f);
            && (ok ==> forall j :: k <= j < |names| ==>
                  names[j] in next && (next[names[j]], true) == Treat(job, names[j], Look(caches, names[j]), f))
            && (forall n :: n in caches ==> n in next)
            && (forall n :: n in next && n !in names[k..] ==> n in caches && next[n] == caches[n])
    decreases |names| - k
  {
    if k < |names| {
      var (c, ok) := Treat(job, names[k], Look(caches, names[k]), f);
      assert names[k..] == [names[k]] + names[k + 1..];
      if ok {
        EachIsTreatedOnce(job, names, k + 1, caches[names[k] := c], f);
      }
    }
  }

  // So a completed ConnectCaches has created every cache that was missing once, and connected every one that was not
  // connected once.
  lemma MissingCachesAreCreatedOnce(names: seq<string>, caches: Caches, f: Faults, i: nat)
    requires i < |names| && forall i, j :: 0 <= i < j < |names| ==> names[i] != names[j]
    requires TreatAll(Connecting, names, 0, caches, f).1
    ensures var next, n := TreatAll(Connecting, names, 0, caches, f).0, names[i];
            && n in next && next[n].connected && (BuiltIn(n) || next[n].present)
            && (n !in caches ==> next[n].creates == (if BuiltIn(n) then 0 else 1) && next[n].adds == 1)
            && (Present(caches, n) ==> next[n].creates == caches[n].creates)
            && (Linked(caches, n) ==> next[n].adds == caches[n].adds)
  {
    EachIsTreatedOnce(Connecting, names, 0, caches, f);
    ConnectEffect(names[i], caches, f);
  }

  // A cache is created at most once, and connected at most once before it is disconnected.
  ghost predicate AtMostOnce(caches: Caches) {
    forall n :: n in caches ==>
      var c := caches[n];
      c.creates <= 1 && (c.creates == 1 ==> c.present) && c.adds <= 1 && (c.adds == 1 ==> c.connected)
  }

  lemma {:induction false} ConnectingCallsOnce(names: seq<string>, k: nat, caches: Caches, f: Faults)
    requires k <= |names| && AtMostOnce(caches)
    ensures AtMostOnce(TreatAll(Connecting, names, k, caches, f).0)
    decreases |names| - k
  {
    if k < |names| {
      var (c, ok) := Treat(Connecting, names[k], Look(caches, names[k]), f);
      assert AtMostOnce(caches[names[k] := c]);
      if ok {
        ConnectingCallsOnce(names, k + 1, caches[names[k] := c], f);
      }
    }
  }

  // One attempt at ConnectCaches: what the source listed and which calls failed.
  datatype Attempt = Attempt(names: Option<seq<string>>, faults: Faults)

  function Attempts(client: Client, caches: Caches, attempts: seq<Attempt>): Caches {
    if attempts == [] then caches
    else
      var last := attempts[|attempts| - 1];
      Migrate(Connecting, client, last.names, Attempts(client, caches, attempts[..|attempts| - 1]), last.faults).0
  }

  lemma {:induction false} AttemptsCallOnce(client: Client, start: Caches, attempts: seq<Attempt>)
    requires AtMostOnce(start)
    ensures AtMostOnce(Attempts(client, start, attempts))
  {
    if attempts != [] {
      var last := attempts[|attempts| - 1];
      var before := Attempts(client, start, attempts[..|attempts| - 1]);
      AttemptsCallOnce(client, start, attempts[..|attempts| - 1]);
      if last.names.Some? && Ordered(client, last.names.value).Some? {
        ConnectingCallsOnce(Ordered(client, last.names.value).value, 0, before, last.faults);
      }
    }
  }

  lemma OrderedLists(client: Client, names: seq<string>)
    requires client.Valid() && multiset(names)[client.metadata] == 1 && multiset(names)[client.script] == 1
    ensures Ordered(client, names).Some? && forall n :: n in names <==> n in Ordered(client, names).value
  {
    PanicsWhen(client, names);
    OrderedIsPermutationWhen(client, names);
    var ordered := Ordered(client, names).value;
    forall n ensures n in names <==> n in ordered {
      assert n in multiset(names) <==> n in multiset(ordered);
    }
  }

  // ConnectCaches may be interrupted at any call and run again any number of times. It ends without an error only with
  // every listed cache connected, which one attempt without a failing call achieves; and over all the attempts Create
  // and AddSource take effect at most once for each cache.
  lemma ConnectingIsRetrySafe(client: Client, start: Caches, attempts: seq<Attempt>, names: seq<string>, f: Faults)
    requires client.Valid() && AtMostOnce(start)
    requires multiset(names)[client.metadata] == 1 && multiset(names)[client.script] == 1
    ensures var (caches, result) := Migrate(Connecting, client, Some(names), Attempts(client, start, attempts), f);
            && result != Panicked
            && (f == map[] ==> result == Done)
            && (result == Done ==> forall n :: n in names ==> Ready(n, Look(caches, n)))
            && (forall n :: Look(caches, n).creates <= 1 && Look(caches, n).adds <= 1)
  {
    var before := Attempts(client, start, attempts);
    AttemptsCallOnce(client, start, attempts);
    OrderedLists(client, names);
    var ordered := Ordered(client, names).value;
    TreatAllFinishes(Connecting, ordered, 0, before, f);
    ConnectingCallsOnce(ordered, 0, before, f);
  }

  // ---- the loops ----

  class Target {
    var caches: Caches

    constructor (caches: Caches)
      ensures this.caches == caches
    {
      this.caches := caches;
    }

    method Store(name: string, cache: Cache)
      modifies this
      ensures caches == old(caches)[name := cache]
    {
      caches := caches[name := cache];
    }

    // The body of the first loop.
    method ConnectCache(name: string, f: Faults) returns (ok: bool)
      modifies this
      ensures var (c, done) := ConnectOne(name, Look(old(caches), name), f);
              caches == old(caches)[name := c] && ok == done
    {
      var cache := Look(caches, name);
      Store(name, cache);
      if !BuiltIn(name) {
        if Of(f, name, Exists) != Ok {
          return false;
        }
        if !cache.present {
          if Of(f, name, Config) != Ok {
            return false;
          }
          if Of(f, name, Create) != Failed {
            cache := Created(cache);
            Store(name, cache);
          }
          if Of(f, name, Create) != Ok {
            return false;
          }
        }
      }
      if Of(f, name, SourceConnected) != Ok {
        return false;
      }
      if !cache.connected {
        if Of(f, name, AddSource) != Failed {
          Store(name, Connected(cache));
        }
        if Of(f, name, AddSource) != Ok {
          return false;
        }
      }
      ok := true;
    }

    method ConnectCaches(client: Client, names: Option<seq<string>>, f: Faults) returns (result: Result)
      modifies this
      ensures (caches, result) == Migrate(Connecting, client, names, old(caches), f)
    {
      if names.None? {
        return Error;
      }
      var ordered := OrderNames(client, names.value);
      if ordered.None? {
        return Panicked;
      }
      var k := 0;
      while k < |ordered.value|
        invariant 0 <= k <= |ordered.value|
        invariant TreatAll(Connecting, ordered.value, k, caches, f)
                  == TreatAll(Connecting, ordered.value, 0, old(caches), f)
      {
        var ok := ConnectCache(ordered.value[k], f);
        if !ok {
          return Error;
        }
        k := k + 1;
      }
      result := Done;
    }

    // The body of the second loop.
    method SyncCache(name: string, f: Faults) returns (ok: bool)
      modifies this
      ensures var (c, done) := SyncOne(name, Look(old(caches), name), f);
              caches == old(caches)[name := c] && ok == done
    {
      var cache := Look(caches, name);
      if Of(f, name, SyncData) != Failed {
        cache := Fetched(cache);
      }
      Store(name, cache);
      if Of(f, name, SyncData) != Ok {
        return false;
      }
      if Of(f, name, DisconnectSource) != Failed {
        Store(name, Disconnected(cache));
      }
      ok := Of(f, name, DisconnectSource) == Ok;
    }

    method SyncCaches(client: Client, names: Option<seq<string>>, f: Faults) returns (result: Result)
      modifies this
      ensures (caches, result) == Migrate(Syncing, client, names, old(caches), f)
    {
      if names.None? {
        return Error;
      }
      var ordered := OrderNames(client, names.value);
      if ordered.None? {
        return Panicked;
      }
      var k := 0;
      while k < |ordered.value|
        invariant 0 <= k <= |ordered.value|
        invariant TreatAll(Syncing, ordered.value, k, caches, f) == TreatAll(Syncing, ordered.value, 0, old(caches), f)
      {
        var ok := SyncCache(ordered.value[k], f);
        if !ok {
          return Error;
        }
        k := k + 1;
      }
      result := Done;
    }
  }
}
