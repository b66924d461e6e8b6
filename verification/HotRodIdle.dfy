/**
 Reconciliations of a cluster with Hot Rod rolling upgrades outside an upgrade, and ones that are stopped on the way.
 */
module HotRodIdle {
  import opened ApiCalls
  import opened Operands
  import opened HotRodModel
  import opened HotRodScripts
  import opened HotRodSafety
  import opened HotRodFinish

  // The status once the WellFormed condition has been written.
  function Observed(s: Status, observed: Option<bool>): Status {
    match observed
    case None => s
    case Some(wellFormed) =>
      s.(wellFormed := wellFormed,
         operand := s.operand.(phase := if wellFormed then Running else s.operand.phase))
  }

  // One StatefulSet of that name, with its ConfigMap and services, none of them pinned; the caches of a set that was
  // there are kept.
  ghost predicate Provisioned(w: World, s: Store) {
    var n := w.status.name;
    && s.sets == map[n := if n in w.store.sets then w.store.sets[n] else w.settings.native] && s.configs == {n}
    && s.services == Services(Any, Any, if w.settings.exposed then Any else Absent, map[n := Any])
  }

  // The store after each call of the provisioning script.
  function Stored(w: World, s: Store, k: nat): Store
    requires k <= |ProvisionScript(w)|
  {
    if k == 0 then s else Effect(w.settings, Stored(w, s, k - 1), ProvisionScript(w)[k - 1])
  }

  lemma {:induction false} ScriptRuns(w: World, s: Store, k: nat, e: Env)
    requires k <= |ProvisionScript(w)| && e.faults == map[]
    ensures Execute(w.settings, Stored(w, s, k), ProvisionScript(w), k, e)
            == (Stored(w, s, |ProvisionScript(w)|), true)
    decreases |ProvisionScript(w)| - k
  {
    if k < |ProvisionScript(w)| {
      ScriptRuns(w, s, k + 1, e);
    }
  }

  lemma ScriptEffect(w: World, e: Env)
    requires Plain(w.status.name, w.store) && e.faults == map[] && w.store.services.user == Any
    ensures var (s, ok) := Execute(w.settings, w.store, ProvisionScript(w), 0, e);
            ok && Provisioned(w, s.(services := s.services.(outer := if w.settings.exposed then Any else Absent)))
            && s.services.outer == w.store.services.outer
  {
    var n, s := w.status.name, w.store;
    ScriptRuns(w, s, 0, e);
    assert Stored(w, s, 1) == s.(configs := s.configs + {n});
    assert Stored(w, s, 2) == Effect(w.settings, Stored(w, s, 1), PutPing(n));
    assert Stored(w, s, 3) == Effect(w.settings, Stored(w, s, 2), Put(Admin));
    if n !in s.sets {
      assert Stored(w, s, 4) == Effect(w.settings, Stored(w, s, 3), AddSet(n));
      assert s.sets == map[];
    } else {
      assert s.sets == map[n := s.sets[n]];
    }
    assert s.configs + {n} == {n};
    assert s.services.ping[n := Any] == map[n := Any];
  }

  // Undisturbed, a cluster that needs no upgrade is provisioned: exactly the StatefulSet in use, its ConfigMap and the
  // services; and what is observed of the cluster is recorded.
  lemma IdleRunProvisions(w: World, e: Env)
    requires Inv(w) && w.status.upgrade.None? && w.request.version in w.settings.known && !w.Required()
    requires Undisturbed(e)
    ensures var w' := Reconcile(w, e);
            && Provisioned(w, w'.store) && w'.status == Observed(w.status, e.observed)
            && w' == w.(store := w'.store, status := w'.status)
  {
    PutUserKeeps(w, e);
    var ops := [Put(User)];
    var s1 := Effect(w.settings, w.store, ops[0]);
    assert Execute(w.settings, s1, ops, 1, e) == (s1, true);
    var w0 := WithStore(w, s1);
    ScriptEffect(w0, e);
    var s2 := Execute(w.settings, s1, ProvisionScript(w0), 0, e).0;
    OuterRuns(w.settings, s2, e);
    OuterCompletes(w.settings, s2, e);
    var w1 := Provision(w0, e).0;
    assert Provisioned(w, w1.store);
    assert HandleUpgrade(w1, e) == w1;
  }

  lemma OuterCompletes(g: Settings, s: Store, e: Env)
    requires e.faults == map[]
    ensures Execute(g, s, WhenExposed(g, Put(Outer)), 0, e).1
  {
    ExecuteCompletes(g, s, WhenExposed(g, Put(Outer)), 0, e, (t: Store) => true);
  }

  // ---- runs that stop on the way ----

  // Nothing has changed but, perhaps, the selector of the user service, which every run rewrites.
  predicate Untouched(w: World, w': World) {
    && w'.status == w.status && w'.request == w.request && w'.settings == w.settings && w'.past == w.past
    && w'.store == w.store.(services := w.store.services.(user := w'.store.services.user))
    && (w'.store.services.user == w.store.services.user || w'.store.services.user == Any)
  }

  // The run stops before it can do anything for an upgrade in progress.
  predicate StopsEarly(w: World, e: Env) {
    Scheduling in e.stops || (Managing in e.stops && w.status.upgrade.Some?) || e.Of(Do(Put(User))) != Ok
    || (Provisioning in e.stops && w.status.upgrade.None?)
    || (w.status.upgrade.Some? && w.status.name !in w.store.sets)
  }

  lemma StoppedRunWaits(w: World, e: Env)
    requires Inv(w) && StopsEarly(w, e)
    ensures Untouched(w, Reconcile(w, e))
            || (w.status.upgrade.None? && Reconcile(w, e).status.upgrade.Some? && Scheduling !in e.stops)
  {
    PutUserKeeps(w, e);
  }

  // A run stopped before the stages, or without pods, leaves an upgrade that is not rolled back where it is.
  lemma StoppedUpgradeWaits(w: World, u: Upgrade, e: Env)
    requires Inv(w) && w.status.upgrade == Some(u)
    requires !e.pods || (Migrating in e.stops && !w.RequestsSource())
    ensures var w' := Reconcile(w, e);
            && Untouched(w, w'.(status := w.status))
            && (w'.status == w.status || w'.status == Observed(w.status, e.observed))
  {
    PutUserKeeps(w, e);
  }

  // A run stopped before the external service, or failing at it, has not changed the status.
  lemma UnexposedRunWaits(w: World, e: Env)
    requires Inv(w) && w.status.upgrade.None? && !(w.request.version in w.settings.known && w.Required())
    requires Exposing in e.stops || Managing in e.stops || (w.settings.exposed && e.Of(Do(Put(Outer))) != Ok)
    ensures Reconcile(w, e).status == w.status
    ensures Exposing in e.stops ==> Reconcile(w, e).store.services.outer == w.store.services.outer
  {
    PutUserKeeps(w, e);
    var w0 := WithStore(w, Execute(w.settings, w.store, [Put(User)], 0, e).0);
    ProvisionRuns(w0, e);
    ProvisionIsPartial(w0, e);
  }
}
