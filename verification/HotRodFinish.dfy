/**
 Finishing a Hot Rod rolling upgrade, forwards by the cleanup or backwards by a rollback: however often it is
 interrupted, and wherever, it ends as an uninterrupted one does. And the rollbacks that do not end well.
 */
module HotRodFinish {
  import opened ApiCalls
  import opened Operands
  import opened HotRodModel
  import opened HotRodScripts
  import opened HotRodSafety
  import M = CacheMigration

  predicate Finishing(w: World, u: Upgrade) {
    w.status.upgrade == Some(u) && (w.RequestsSource() || u.stage == Cleanup)
  }

  // The StatefulSet that goes and the one that stays.
  function Gone(w: World, u: Upgrade): Name {
    if w.RequestsSource() then u.target else u.source
  }

  function Kept(w: World, u: Upgrade): Name {
    if w.RequestsSource() then u.source else u.target
  }

  // Where an uninterrupted cleanup or rollback leads.
  function Goal(w: World, u: Upgrade): Store {
    Removed(w.settings, Kept(w, u), Gone(w, u), w.store)
  }

  // The goal: one StatefulSet with its ConfigMap and its ping service, and no service pinned to a StatefulSet.
  lemma GoalIsOneCluster(w: World, u: Upgrade)
    requires Inv(w) && Finishing(w, u)
    ensures var kept, s := Kept(w, u), Goal(w, u);
            && s.sets.Keys == {kept} && s.sets[kept] == w.store.sets[kept] && s.configs == {kept}
            && s.services.ping == map[kept := Any] && s.services.user == s.services.admin == Any
            && s.services.outer == (if w.settings.exposed then Any else Absent)
  {
  }

  lemma HandleFinishes(w: World, u: Upgrade, e: Env)
    requires Inv(w) && Finishing(w, u)
    ensures var w' := HandleUpgrade(w, e);
            && w'.request == w.request && w'.settings == w.settings
            && (if w'.status.upgrade.None? then w'.store == Goal(w, u) && w'.status.name == Kept(w, u)
                else w'.status == w.status && Goal(w', u) == Goal(w, u))
  {
    if e.pods {
      if w.RequestsSource() {
        RollbackRuns(w, u, e);
      } else if w.status.wellFormed {
        RemovalIsPartial(w.settings, u.target, u.source, w.store, e);
        RemovalAchieves(w.settings, u.target, u.source, w.store, e);
      }
    }
  }

  lemma ReconcileFinishes(w: World, u: Upgrade, e: Env)
    requires Inv(w) && Finishing(w, u)
    ensures var w' := Reconcile(w, e);
            && Inv(w') && w'.request == w.request && w'.settings == w.settings
            && (if w'.status.upgrade.None? then w'.store == Goal(w, u) && w'.status.name == Kept(w, u)
                else Finishing(w', u) && Goal(w', u) == Goal(w, u) && Kept(w', u) == Kept(w, u))
  {
    ReconcileKeeps(w, e);
    PutUserKeeps(w, e);
    var (s, ok) := Execute(w.settings, w.store, [Put(User)], 0, e);
    var w0 := WithStore(w, s);
    assert Goal(w0, u) == Goal(w, u);
    HandleFinishes(w0, u, e);
  }

  // Reconciliations until the upgrade is over.
  function UntilOver(w: World, es: seq<Env>): World
    decreases |es|
  {
    if es == [] || w.status.upgrade.None? then w else UntilOver(Reconcile(w, es[0]), es[1..])
  }

  // Retry confluence: after any number of reconciliations, each interrupted anywhere, the upgrade is either over with
  // exactly the outcome of an uninterrupted one, or still leads there.
  lemma {:induction false} RetriesAreConfluent(w: World, u: Upgrade, es: seq<Env>)
    requires Inv(w) && Finishing(w, u)
    ensures var w' := UntilOver(w, es);
            && Inv(w')
            && (if w'.status.upgrade.None? then w'.store == Goal(w, u) && w'.status.name == Kept(w, u)
                else Finishing(w', u) && Goal(w', u) == Goal(w, u))
    decreases |es|
  {
    if es != [] {
      var next := Reconcile(w, es[0]);
      ReconcileFinishes(w, u, es[0]);
      if next.status.upgrade.Some? {
        RetriesAreConfluent(next, u, es[1..]);
      } else {
        assert UntilOver(next, es[1..]) == next;
      }
    }
  }

  // Nothing fails and the pods are listed.
  predicate Undisturbed(e: Env) {
    e.faults == map[] && e.stops == {} && e.pods
  }

  // One undisturbed reconciliation finishes, a cleanup provided the cluster is well formed.
  lemma UndisturbedFinishes(w: World, u: Upgrade, e: Env)
    requires Inv(w) && Finishing(w, u) && Undisturbed(e) && w.request.version in w.settings.known
    requires w.RequestsSource() || w.status.wellFormed
    ensures Reconcile(w, e).status.upgrade.None? && Reconcile(w, e).store == Goal(w, u)
  {
    ReconcileFinishes(w, u, e);
    PutUserKeeps(w, e);
    var ops := [Put(User)];
    var s1 := Effect(w.settings, w.store, ops[0]);
    assert Execute(w.settings, s1, ops, 1, e) == (s1, true);
    var w0 := WithStore(w, s1);
    if w.RequestsSource() {
      RollbackCompletes(w0, u, e);
    } else {
      RemovalCompletes(w.settings, u.target, u.source, s1, e);
    }
  }

  lemma RollbackCompletes(w: World, u: Upgrade, e: Env)
    requires Inv(w) && Finishing(w, u) && w.RequestsSource() && e.faults == map[]
    ensures Execute(w.settings, w.store, RollbackScript(w, u), 0, e).1
  {
    var g, s := w.settings, w.store;
    ExecuteBoth(g, s, RedirectTo(g, u.source), Removal(g, u.source, u.target), 0, e);
    RedirectRuns(g, u.source, s, e);
    ExecuteCompletes(g, s, RedirectTo(g, u.source), 0, e, (t: Store) => Served(g, u.source, t));
    RemovalCompletes(g, u.source, u.target, Execute(g, s, RedirectTo(g, u.source), 0, e).0, e);
  }

  // A rollback restores the source release as well.
  lemma RollbackRestoresTheSource(w: World, u: Upgrade, e: Env)
    requires Inv(w) && Finishing(w, u) && w.RequestsSource()
    ensures var w' := Reconcile(w, e);
            w'.status.upgrade.None? ==>
              && w'.status.operand == StatusOf(w.request.image, Running, w.settings.known[u.sourceVersion.value])
              && w'.status.name == u.source && w'.store.sets == map[u.source := w.store.sets[u.source]]
  {
    ReconcileFinishes(w, u, e);
    GoalIsOneCluster(w, u);
    PutUserKeeps(w, e);
    assert w.store.sets - {u.target} == map[u.source := w.store.sets[u.source]];
  }

  // ---- rollbacks that do not end well ----

  // An upgrade whose cleanup has begun, with the source version asked for again.
  ghost predicate LateRollback(w: World, u: Upgrade) {
    && w.status.upgrade == Some(u) && u.stage == Cleanup && w.status.name == u.target && u.source != u.target
    && w.RequestsSource()
    && OnlyThese(u, w.store)
  }

  // In the Cleanup stage an undisturbed rollback removes the target whatever is left of the source: a StatefulSet
  // remains exactly when the cleanup had not removed the source yet.
  lemma LateRollbackKeepsDataWhen(w: World, u: Upgrade, e: Env)
    requires LateRollback(w, u) && Served(w.settings, u.target, w.store) && u.target in w.store.sets && Undisturbed(e)
    ensures var w' := Reconcile(w, e);
            && w'.status.upgrade.None? && w'.status.name == u.source
            && (w'.store.sets != map[] <==> u.source in w.store.sets)
  {
    var g, ops := w.settings, [Put(User)];
    var s1 := Effect(g, w.store, ops[0]);
    assert Execute(g, s1, ops, 1, e) == (s1, true);
    var w0 := WithStore(w, s1);
    LateRollbackRuns(w0, u, e);
    var (t, ok) := Execute(g, s1, RollbackScript(w0, u), 0, e);
    assert ok && t.sets == w.store.sets - {u.target};
    if u.source in w.store.sets {
      assert u.source in t.sets;
    } else {
      assert t.sets == map[];
    }
  }

  lemma LateRollbackRuns(w: World, u: Upgrade, e: Env)
    requires LateRollback(w, u) && Served(w.settings, u.target, w.store) && e.faults == map[]
    ensures var (t, ok) := Execute(w.settings, w.store, RollbackScript(w, u), 0, e);
            ok && t.sets == w.store.sets - {u.target}
  {
    var g, s := w.settings, w.store;
    var front := RedirectTo(g, u.source) + ClearSelectors(g, u.target);
    assert RollbackScript(w, u) == front + Deletions(u.target);
    ExecuteBoth(g, s, front, Deletions(u.target), 0, e);
    FrontOps(g, u.source, u.target);
    ExecuteCompletes(g, s, front, 0, e, (t: Store) => Served(g, u.target, t));
    ExecuteKeeps(g, s, front, 0, e, (t: Store) => t.sets == s.sets);
    DeletionsRun(g, u.target, Execute(g, s, front, 0, e).0, e);
  }

  // The calls of a rollback before its deletions only change selectors, and leave none absent.
  predicate FrontOp(g: Settings, inUse: Name, op: Op) {
    match op
    case Select(service, to) => !to.Absent? && (service.Outer? ==> g.exposed)
    case SelectPing(n, to) => n == inUse
    case _ => false
  }

  lemma FrontOps(g: Settings, source: Name, inUse: Name)
    ensures forall op :: op in RedirectTo(g, source) + ClearSelectors(g, inUse) ==> FrontOp(g, inUse, op)
  {
  }

  lemma DeletionsRun(g: Settings, gone: Name, s: Store, e: Env)
    requires e.faults == map[]
    ensures var (t, ok) := Execute(g, s, Deletions(gone), 0, e);
            ok && t.sets == s.sets - {gone}
  {
    var ops := Deletions(gone);
    ExecuteCompletes(g, s, ops, 0, e, (t: Store) => true);
    ExecuteAchieves(g, s, ops, 0, e, 2, (t: Store) => gone !in t.sets);
    ExecuteKeeps(g, s, ops, 0, e, (t: Store) => t.sets == s.sets || t.sets == s.sets - {gone});
  }

  // The ping service of the StatefulSet in use has been deleted by a rollback in the Cleanup stage that was then
  // interrupted.
  ghost predicate Stranded(w: World, u: Upgrade) {
    LateRollback(w, u) && u.target !in w.store.services.ping
  }

  // Such a rollback never completes: its first part changes the selector of that very service. However often it is run
  // again, the upgrade stays in progress and nothing more is removed.
  lemma StrandedRollbackNeverCompletes(w: World, u: Upgrade, e: Env)
    requires Stranded(w, u)
    ensures var w' := Reconcile(w, e);
            && Stranded(w', u) && w'.store.sets == w.store.sets && w'.store.configs == w.store.configs
  {
    var g, s, ops := w.settings, w.store, [Put(User)];
    var s1 := Effect(g, s, ops[0]);
    assert Execute(g, s1, ops, 1, e) == (s1, true);
    StrandedRuns(w, u, e);
    StrandedRuns(WithStore(w, s1), u, e);
  }

  lemma StrandedRuns(w: World, u: Upgrade, e: Env)
    requires Stranded(w, u)
    ensures var (t, ok) := Execute(w.settings, w.store, RollbackScript(w, u), 0, e);
            && !ok && t.sets == w.store.sets && t.configs == w.store.configs && t.services.ping == w.store.services.ping
  {
    var g, s := w.settings, w.store;
    var front := RedirectTo(g, u.source) + [Select(Admin, Any)];
    var cleared := [SelectPing(u.target, Any), Select(User, Any)] + WhenExposed(g, Select(Outer, Any));
    var rest := cleared + Deletions(u.target);
    assert ClearSelectors(g, u.target) == [Select(Admin, Any)] + cleared;
    assert RollbackScript(w, u) == front + rest;
    assert rest[0] == SelectPing(u.target, Any);
    ExecuteBoth(g, s, front, rest, 0, e);
    var same := (t: Store) => t.sets == s.sets && t.configs == s.configs && t.services.ping == s.services.ping;
    ExecuteKeeps(g, s, front, 0, e, same);
  }

  lemma {:induction false} StrandedForGood(w: World, u: Upgrade, es: seq<Env>)
    requires Stranded(w, u)
    ensures Stranded(UntilOver(w, es), u)
    decreases |es|
  {
    if es != [] {
      StrandedRollbackNeverCompletes(w, u, es[0]);
      StrandedForGood(Reconcile(w, es[0]), u, es[1..]);
    }
  }

  // ---- a source release the operator does not know ----

  // An upgrade from a release the operator has dropped panics in every reconciliation and makes no progress at all.
  lemma UnknownSourceIsStuck(w: World, u: Upgrade, e: Env)
    requires w.status.upgrade == Some(u) && u.sourceVersion.Some? && u.sourceVersion.value !in w.settings.known
    ensures var w' := Reconcile(w, e);
            && w'.status.upgrade == Some(u)
            && w'.store.sets == w.store.sets && w'.store.configs == w.store.configs
            && w'.store.services.(user := w.store.services.user) == w.store.services
  {
    var ops := [Put(User)];
    var s1 := Effect(w.settings, w.store, ops[0]);
    assert Execute(w.settings, s1, ops, 1, e) == (s1, true);
  }
}
