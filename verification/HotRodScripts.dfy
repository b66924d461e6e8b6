/**
 What a script of calls leaves behind when it is interrupted anywhere, and when it completes.
 */
module HotRodScripts {
  import opened ApiCalls
  import opened Operands
  import opened HotRodModel
  import M = CacheMigration

  // What every call of a script keeps, the script keeps, wherever it is interrupted.
  lemma {:induction false} ExecuteKeeps(g: Settings, s: Store, ops: seq<Op>, k: nat, e: Env, P: Store -> bool)
    requires k <= |ops| && P(s)
    requires forall op, t :: op in ops && P(t) && Enabled(t, op) ==> P(Effect(g, t, op))
    ensures P(Execute(g, s, ops, k, e).0)
    decreases |ops| - k
  {
    if k < |ops| && Enabled(s, ops[k]) {
      assert ops[k] in ops;
      var next := Effect(g, s, ops[k]);
      if e.Of(Do(ops[k])) == Ok {
        ExecuteKeeps(g, next, ops, k + 1, e, P);
      }
    }
  }

  // What one call of a script achieves and the others keep holds once the script has completed.
  lemma {:induction false} ExecuteAchieves(g: Settings, s: Store, ops: seq<Op>, k: nat, e: Env, j: nat,
                                           P: Store -> bool)
    requires k <= |ops| && j < |ops| && (j < k ==> P(s))
    requires forall t :: Enabled(t, ops[j]) ==> P(Effect(g, t, ops[j]))
    requires forall op, t :: op in ops && P(t) && Enabled(t, op) ==> P(Effect(g, t, op))
    ensures var (s', ok) := Execute(g, s, ops, k, e); ok ==> P(s')
    decreases |ops| - k
  {
    if k < |ops| && Enabled(s, ops[k]) {
      assert ops[k] in ops;
      ExecuteAchieves(g, Effect(g, s, ops[k]), ops, k + 1, e, j, P);
    }
  }

  // Two scripts in a row.
  lemma {:induction false} ExecuteBoth(g: Settings, s: Store, a: seq<Op>, b: seq<Op>, k: nat, e: Env)
    requires k <= |a|
    ensures Execute(g, s, a + b, k, e)
         == (var (s1, ok) := Execute(g, s, a, k, e); if ok then Execute(g, s1, b, 0, e) else (s1, false))
    decreases |a| - k
  {
    if k < |a| {
      assert (a + b)[k] == a[k];
      if Enabled(s, a[k]) && e.Of(Do(a[k])) == Ok {
        ExecuteBoth(g, Effect(g, s, a[k]), a, b, k + 1, e);
      }
    } else {
      Suffix(g, s, a, b, 0, e);
    }
  }

  lemma {:induction false} Suffix(g: Settings, s: Store, a: seq<Op>, b: seq<Op>, k: nat, e: Env)
    requires k <= |b|
    ensures Execute(g, s, a + b, |a| + k, e) == Execute(g, s, b, k, e)
    decreases |b| - k
  {
    if k < |b| {
      assert (a + b)[|a| + k] == b[k];
      if Enabled(s, b[k]) && e.Of(Do(b[k])) == Ok {
        Suffix(g, Effect(g, s, b[k]), a, b, k + 1, e);
      }
    }
  }

  // The calls a script needs are possible throughout, and none fails: it completes.
  lemma {:induction false} ExecuteCompletes(g: Settings, s: Store, ops: seq<Op>, k: nat, e: Env, P: Store -> bool)
    requires k <= |ops| && P(s) && e.faults == map[]
    requires forall op, t :: op in ops && P(t) ==> Enabled(t, op) && P(Effect(g, t, op))
    ensures Execute(g, s, ops, k, e).1
    decreases |ops| - k
  {
    if k < |ops| {
      assert ops[k] in ops;
      ExecuteCompletes(g, Effect(g, s, ops[k]), ops, k + 1, e, P);
    }
  }

  // ---- redirecting the user traffic ----

  // Every location holds its old or its new value.
  predicate Redirecting(g: Settings, to: Name, s: Store, t: Store) {
    && t.sets == s.sets && t.configs == s.configs && t.services.admin == s.services.admin
    && t.services.ping == s.services.ping
    && (t.services.user == s.services.user || (t.services.user == Only(to) && !s.services.user.Absent?))
    && (t.services.outer == s.services.outer
        || (g.exposed && t.services.outer == Only(to) && !s.services.outer.Absent?))
  }

  lemma RedirectRuns(g: Settings, to: Name, s: Store, e: Env)
    ensures var (t, ok) := Execute(g, s, RedirectTo(g, to), 0, e);
            && Redirecting(g, to, s, t)
            && (ok ==> t.services.user == Only(to) && (g.exposed ==> t.services.outer == Only(to)))
  {
    var ops := RedirectTo(g, to);
    ExecuteKeeps(g, s, ops, 0, e, (t: Store) => Redirecting(g, to, s, t));
    ExecuteAchieves(g, s, ops, 0, e, 0, (t: Store) => t.services.user == Only(to));
    if g.exposed {
      ExecuteAchieves(g, s, ops, 0, e, 1, (t: Store) => t.services.outer == Only(to));
    }
  }

  // ---- removing a StatefulSet ----

  type Pings = map<Name, Selector>

  function PingsRemoved(inUse: Name, gone: Name, p: Pings): Pings {
    (if inUse in p then p[inUse := Any] else p) - {gone}
  }

  // The store once the removal is complete.
  function Removed(g: Settings, inUse: Name, gone: Name, s: Store): Store {
    Store(s.sets - {gone}, s.configs - {gone},
          Services(Any, Any, if g.exposed then Any else s.services.outer, PingsRemoved(inUse, gone, s.services.ping)))
  }

  // Every location holds its old or its new value.
  predicate PingsRemoving(inUse: Name, gone: Name, p: Pings, q: Pings) {
    && (forall n :: n in q ==> n in p && (q[n] == p[n] || (n == inUse && q[n] == Any)))
    && (forall n :: n in p && n != gone ==> n in q)
    && PingsRemoved(inUse, gone, q) == PingsRemoved(inUse, gone, p)
  }

  predicate Removing(g: Settings, inUse: Name, gone: Name, s: Store, t: Store) {
    && (t.sets == s.sets || t.sets == s.sets - {gone})
    && (t.configs == s.configs || t.configs == s.configs - {gone})
    && (t.services.user == s.services.user || (t.services.user == Any && !s.services.user.Absent?))
    && (t.services.admin == s.services.admin || (t.services.admin == Any && !s.services.admin.Absent?))
    && (t.services.outer == s.services.outer || (g.exposed && t.services.outer == Any && !s.services.outer.Absent?))
    && PingsRemoving(inUse, gone, s.services.ping, t.services.ping)
  }

  lemma PingSelected(inUse: Name, gone: Name, p: Pings, q: Pings)
    requires inUse != gone && PingsRemoving(inUse, gone, p, q) && inUse in q
    ensures PingsRemoving(inUse, gone, p, q[inUse := Any])
  {
    assert PingsRemoved(inUse, gone, q[inUse := Any]) == PingsRemoved(inUse, gone, q);
  }

  lemma PingDeleted(inUse: Name, gone: Name, p: Pings, q: Pings)
    requires inUse != gone && PingsRemoving(inUse, gone, p, q)
    ensures PingsRemoving(inUse, gone, p, q - {gone})
  {
    assert PingsRemoved(inUse, gone, q - {gone}) == PingsRemoved(inUse, gone, q);
  }

  // The calls of a removal.
  predicate RemovalOp(g: Settings, inUse: Name, gone: Name, op: Op) {
    match op
    case Select(service, to) => to == Any && (service.Outer? ==> g.exposed)
    case SelectPing(n, to) => n == inUse && to == Any
    case DeleteConfig(n) => n == gone
    case DeletePing(n) => n == gone
    case DeleteSet(n) => n == gone
    case _ => false
  }

  lemma RemovalOps(g: Settings, inUse: Name, gone: Name)
    ensures forall op :: op in Removal(g, inUse, gone) ==> RemovalOp(g, inUse, gone, op)
  {
  }

  lemma RemovalSteps(g: Settings, inUse: Name, gone: Name, s: Store, op: Op, t: Store)
    requires inUse != gone && RemovalOp(g, inUse, gone, op) && Removing(g, inUse, gone, s, t) && Enabled(t, op)
    ensures Removing(g, inUse, gone, s, Effect(g, t, op))
  {
    match op
    case SelectPing(_, _) => PingSelected(inUse, gone, s.services.ping, t.services.ping);
    case DeletePing(_) => PingDeleted(inUse, gone, s.services.ping, t.services.ping);
    case _ =>
  }

  lemma RemovalIsPartial(g: Settings, inUse: Name, gone: Name, s: Store, e: Env)
    requires inUse != gone
    ensures Removing(g, inUse, gone, s, Execute(g, s, Removal(g, inUse, gone), 0, e).0)
  {
    var ops := Removal(g, inUse, gone);
    RemovalOps(g, inUse, gone);
    var P := (t: Store) => Removing(g, inUse, gone, s, t);
    forall op, t | op in ops && P(t) && Enabled(t, op) ensures P(Effect(g, t, op)) {
      RemovalSteps(g, inUse, gone, s, op, t);
    }
    ExecuteKeeps(g, s, ops, 0, e, P);
  }

  // An interrupted removal changes nothing about where the removal leads.
  lemma PartialRemovalLeadsToTheSame(g: Settings, inUse: Name, gone: Name, s: Store, t: Store)
    requires Removing(g, inUse, gone, s, t)
    ensures Removed(g, inUse, gone, t) == Removed(g, inUse, gone, s)
  {
  }

  lemma RemovalSelectsAdmin(g: Settings, inUse: Name, gone: Name, s: Store, e: Env)
    requires inUse != gone
    ensures var (t, ok) := Execute(g, s, Removal(g, inUse, gone), 0, e);
            ok ==> t.services.admin == Any && inUse in t.services.ping && t.services.ping[inUse] == Any
  {
    var ops := Removal(g, inUse, gone);
    RemovalOps(g, inUse, gone);
    ExecuteAchieves(g, s, ops, 0, e, 0, (t: Store) => t.services.admin == Any);
    ExecuteAchieves(g, s, ops, 0, e, 1, (t: Store) => inUse in t.services.ping && t.services.ping[inUse] == Any);
  }

  lemma RemovalSelectsUser(g: Settings, inUse: Name, gone: Name, s: Store, e: Env)
    ensures var (t, ok) := Execute(g, s, Removal(g, inUse, gone), 0, e);
            ok ==> t.services.user == Any && (g.exposed ==> t.services.outer == Any)
  {
    var ops := Removal(g, inUse, gone);
    RemovalOps(g, inUse, gone);
    ExecuteAchieves(g, s, ops, 0, e, 2, (t: Store) => t.services.user == Any);
    if g.exposed {
      ExecuteAchieves(g, s, ops, 0, e, 3, (t: Store) => t.services.outer == Any);
    }
  }

  lemma RemovalDeletes(g: Settings, inUse: Name, gone: Name, s: Store, e: Env)
    requires inUse != gone
    ensures var (t, ok) := Execute(g, s, Removal(g, inUse, gone), 0, e);
            ok ==> gone !in t.configs && gone !in t.services.ping && gone !in t.sets
  {
    var ops := Removal(g, inUse, gone);
    var n := if g.exposed then 4 else 3;
    RemovalOps(g, inUse, gone);
    ExecuteAchieves(g, s, ops, 0, e, n, (t: Store) => gone !in t.configs);
    ExecuteAchieves(g, s, ops, 0, e, n + 1, (t: Store) => gone !in t.services.ping);
    ExecuteAchieves(g, s, ops, 0, e, n + 2, (t: Store) => gone !in t.sets);
  }

  lemma RemovalAchieves(g: Settings, inUse: Name, gone: Name, s: Store, e: Env)
    requires inUse != gone
    ensures var (t, ok) := Execute(g, s, Removal(g, inUse, gone), 0, e);
            ok ==> t == Removed(g, inUse, gone, s)
  {
    RemovalSelectsAdmin(g, inUse, gone, s, e);
    RemovalSelectsUser(g, inUse, gone, s, e);
    RemovalDeletes(g, inUse, gone, s, e);
    RemovalIsPartial(g, inUse, gone, s, e);
    var (t, ok) := Execute(g, s, Removal(g, inUse, gone), 0, e);
    if ok {
      PartialRemovalLeadsToTheSame(g, inUse, gone, s, t);
      RemovedAlready(g, inUse, gone, t);
    }
  }

  lemma RemovedAlready(g: Settings, inUse: Name, gone: Name, t: Store)
    requires t.services.admin == t.services.user == Any && (g.exposed ==> t.services.outer == Any)
    requires inUse in t.services.ping && t.services.ping[inUse] == Any && gone !in t.services.ping
    requires gone !in t.configs && gone !in t.sets
    ensures Removed(g, inUse, gone, t) == t
  {
    assert t.services.ping[inUse := Any] - {gone} == t.services.ping;
    assert t.sets - {gone} == t.sets;
  }

  // The services whose selectors the script clears exist.
  predicate Served(g: Settings, inUse: Name, s: Store) {
    && !s.services.admin.Absent? && !s.services.user.Absent? && (g.exposed ==> !s.services.outer.Absent?)
    && inUse in s.services.ping
  }

  lemma RemovalCompletes(g: Settings, inUse: Name, gone: Name, s: Store, e: Env)
    requires inUse != gone && Served(g, inUse, s) && e.faults == map[]
    ensures Execute(g, s, Removal(g, inUse, gone), 0, e).1
  {
    var ops := Removal(g, inUse, gone);
    RemovalOps(g, inUse, gone);
    ExecuteCompletes(g, s, ops, 0, e, (t: Store) => Served(g, inUse, t));
  }

  // ---- setting the target up ----

  // The services are pinned to the StatefulSet in use, and the ping service of the target is cloned from its own.
  predicate Pinning(g: Settings, name: Name, target: Name, s: Store, t: Store) {
    && t.sets == s.sets && t.configs == s.configs
    && (t.services.user == s.services.user || (t.services.user == Only(name) && !s.services.user.Absent?))
    && (t.services.admin == s.services.admin || (t.services.admin == Only(name) && !s.services.admin.Absent?))
    && (t.services.outer == s.services.outer
        || (g.exposed && t.services.outer == Only(name) && !s.services.outer.Absent?))
    && (forall n :: n in s.services.ping ==> n in t.services.ping)
    && (forall n :: n in t.services.ping ==> n in s.services.ping || n == target)
  }

  predicate PinOp(g: Settings, name: Name, target: Name, op: Op) {
    match op
    case Select(service, to) => to == Only(name) && (service.Outer? ==> g.exposed)
    case SelectPing(n, to) => n == name && to == Only(name)
    case ClonePing(from, n) => from == name && n == target
    case _ => false
  }

  lemma PinOps(w: World, u: Upgrade)
    ensures forall op :: op in PinToSource(w, u) ==> PinOp(w.settings, w.status.name, u.target, op)
  {
  }

  lemma PinningIsPartial(w: World, u: Upgrade, e: Env)
    ensures Pinning(w.settings, w.status.name, u.target, w.store,
                    Execute(w.settings, w.store, PinToSource(w, u), 0, e).0)
  {
    var g, s, name := w.settings, w.store, w.status.name;
    PinOps(w, u);
    ExecuteKeeps(g, s, PinToSource(w, u), 0, e, (t: Store) => Pinning(g, name, u.target, s, t));
  }

  lemma PinningAchieves(w: World, u: Upgrade, e: Env)
    requires w.status.name != u.target
    ensures var (t, ok) := Execute(w.settings, w.store, PinToSource(w, u), 0, e);
            ok ==> && u.target in t.services.ping && t.services.admin == Only(w.status.name)
                   && (w.settings.exposed ==> t.services.outer == Only(w.status.name))
  {
    var g, s, ops, name, target := w.settings, w.store, PinToSource(w, u), w.status.name, u.target;
    var cloned := if target in s.services.ping then 0 else 1;
    PinOps(w, u);
    ExecuteAchieves(g, s, ops, 0, e, cloned, (t: Store) => t.services.admin == Only(name));
    if g.exposed {
      ExecuteAchieves(g, s, ops, 0, e, cloned + 3, (t: Store) => t.services.outer == Only(name));
    }
    if cloned == 1 {
      ExecuteAchieves(g, s, ops, 0, e, 0, (t: Store) => target in t.services.ping);
    } else {
      PinningIsPartial(w, u, e);
    }
  }

  // The ConfigMap comes first.
  lemma CreationRuns(w: World, u: Upgrade, e: Env)
    requires u.target !in w.store.sets
    ensures var t := Execute(w.settings, w.store, CreateTarget(w, u), 0, e).0;
            && t.services == w.store.services
            && (t.configs == w.store.configs || t.configs == w.store.configs + {u.target})
            && (t.sets == w.store.sets
                || (t.sets == w.store.sets[u.target := w.settings.native] && u.target in t.configs))
  {
    var ops := CreateTarget(w, u);
    assert u.target in w.store.configs ==> w.store.configs + {u.target} == w.store.configs;
    if u.target in w.store.configs {
      assert Execute(w.settings, Effect(w.settings, w.store, ops[0]), ops, 1, e).0
             == Effect(w.settings, w.store, ops[0]);
    } else {
      var s1 := Effect(w.settings, w.store, ops[0]);
      var s2 := Effect(w.settings, s1, ops[1]);
      assert Execute(w.settings, s2, ops, 2, e).0 == s2;
      assert Execute(w.settings, s1, ops, 1, e).0 in {s1, s2};
    }
  }

  // ---- provisioning ----

  // What belongs to a StatefulSet in use.
  predicate Present(g: Settings, name: Name, s: Store) {
    name in s.sets && name in s.configs && Served(g, name, s)
  }

  // Nothing but the StatefulSet `name` and what belongs to it; no service is pinned to a StatefulSet.
  predicate Plain(name: Name, s: Store) {
    && (forall n :: n in s.sets ==> n == name) && (forall n :: n in s.configs ==> n == name)
    && (forall n :: n in s.services.ping ==> n == name)
    && !s.services.user.Only? && !s.services.admin.Only? && !s.services.outer.Only?
    && (name in s.services.ping ==> s.services.ping[name] == Any)
  }

  lemma ProvisionIsPartial(w: World, e: Env)
    requires Plain(w.status.name, w.store)
    ensures var t := Execute(w.settings, w.store, ProvisionScript(w), 0, e).0;
            && Plain(w.status.name, t) && t.services.user == w.store.services.user
            && t.services.outer == w.store.services.outer
            && (w.status.name in w.store.sets ==> t.sets == w.store.sets)
            && (Present(w.settings, w.status.name, w.store)
                ==> t.configs == w.store.configs && Present(w.settings, w.status.name, t))
  {
    var g, s, n := w.settings, w.store, w.status.name;
    var ops := ProvisionScript(w);
    ExecuteKeeps(g, s, ops, 0, e, (t: Store) =>
      Plain(n, t) && t.services.user == s.services.user && t.services.outer == s.services.outer
        && (n in s.sets ==> t.sets == s.sets));
    if Present(g, n, s) {
      ExecuteKeeps(g, s, ops, 0, e, (t: Store) => t.configs == s.configs && Present(g, n, t));
    }
  }

  lemma ProvisionAchieves(w: World, e: Env)
    requires Plain(w.status.name, w.store)
    ensures var (t, ok) := Execute(w.settings, w.store, ProvisionScript(w), 0, e);
            ok ==> && w.status.name in t.configs && w.status.name in t.services.ping && w.status.name in t.sets
                   && !t.services.admin.Absent?
  {
    var g, s, n := w.settings, w.store, w.status.name;
    var ops := ProvisionScript(w);
    ExecuteAchieves(g, s, ops, 0, e, 0, (t: Store) => n in t.configs);
    ExecuteAchieves(g, s, ops, 0, e, 1, (t: Store) => n in t.services.ping);
    ExecuteAchieves(g, s, ops, 0, e, 2, (t: Store) => !t.services.admin.Absent?);
    if n in s.sets {
      ProvisionIsPartial(w, e);
    } else {
      ExecuteAchieves(g, s, ops, 0, e, 3, (t: Store) => n in t.sets);
    }
  }

  lemma ProvisionRuns(w: World, e: Env)
    requires Plain(w.status.name, w.store)
    ensures var (w', ok) := Provision(w, e);
            && w' == WithStore(w, w'.store) && Plain(w.status.name, w'.store)
            && (!w.settings.exposed ==> w'.store.services.outer == w.store.services.outer)
            && (forall n :: n in w.store.sets ==> n in w'.store.sets && w'.store.sets[n] == w.store.sets[n])
            && (Present(w.settings, w.status.name, w.store) ==>
                  w'.store == w.store.(services := w'.store.services) && Present(w.settings, w.status.name, w'.store))
            && (ok && !w.store.services.user.Absent? ==> Present(w.settings, w.status.name, w'.store))
  {
    ProvisionIsPartial(w, e);
    ProvisionAchieves(w, e);
    OuterRuns(w.settings, Execute(w.settings, w.store, ProvisionScript(w), 0, e).0, e);
  }

  lemma OuterRuns(g: Settings, s: Store, e: Env)
    ensures var (t, ok) := Execute(g, s, WhenExposed(g, Put(Outer)), 0, e);
            && (t == s || t == s.(services := s.services.(outer := Any)))
            && (ok && g.exposed ==> t.services.outer == Any) && (!g.exposed ==> t == s)
  {
    var ops := WhenExposed(g, Put(Outer));
    ExecuteKeeps(g, s, ops, 0, e, (t: Store) => t == s || t == s.(services := s.services.(outer := Any)));
    if g.exposed {
      ExecuteAchieves(g, s, ops, 0, e, 0, (t: Store) => t.services.outer == Any);
    }
  }
}
