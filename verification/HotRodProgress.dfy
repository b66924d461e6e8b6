/**
 A Hot Rod rolling upgrade that nothing disturbs moves on with every reconciliation and is over after seven.
 */
module HotRodProgress {
  import opened ApiCalls
  import opened Operands
  import opened CacheNames
  import opened HotRodModel
  import opened HotRodScripts
  import opened HotRodSafety
  import opened HotRodFinish
  import M = CacheMigration

  // No call fails, the pods of both clusters are there and agree, the source lists its internal caches, and the cluster
  // in use stays well formed.
  ghost predicate Smooth(w: World, e: Env) {
    && Undisturbed(e) && e.bothListed && e.formed && e.cacheFaults == map[] && e.observed != Some(false)
    && e.listed.Some? && Ordered(w.settings.client, e.listed.value).Some?
  }

  // How many reconciliations an upgrade still needs.
  function Remaining(w: World): nat {
    match w.status.upgrade
    case None => 0
    case Some(u) => if u.stage == Start && u.target !in w.store.sets then 7 else 6 - Position(u.stage)
  }

  lemma PinningCompletes(w: World, u: Upgrade, e: Env)
    requires e.faults == map[] && Served(w.settings, w.status.name, w.store)
    ensures Execute(w.settings, w.store, PinToSource(w, u), 0, e).1
  {
    PinOps(w, u);
    ExecuteCompletes(w.settings, w.store, PinToSource(w, u), 0, e, (t: Store) => Served(w.settings, w.status.name, t));
  }

  lemma CreationCompletes(w: World, u: Upgrade, e: Env)
    requires e.faults == map[] && u.target !in w.store.sets
    ensures u.target in Execute(w.settings, w.store, CreateTarget(w, u), 0, e).0.sets
  {
    var ops := CreateTarget(w, u);
    ExecuteCompletes(w.settings, w.store, ops, 0, e, (t: Store) => true);
    ExecuteAchieves(w.settings, w.store, ops, 0, e, |ops| - 1, (t: Store) => u.target in t.sets);
  }

  lemma RedirectCompletes(g: Settings, name: Name, to: Name, s: Store, e: Env)
    requires e.faults == map[] && Served(g, name, s)
    ensures Execute(g, s, RedirectTo(g, to), 0, e).1
  {
    ExecuteCompletes(g, s, RedirectTo(g, to), 0, e, (t: Store) => Served(g, name, t));
  }

  // The request is the one the upgrade was scheduled for, or another that is not the source's.
  ghost predicate Forward(w: World, u: Upgrade) {
    Inv(w) && w.status.upgrade == Some(u) && !w.RequestsSource() && w.request.version in w.settings.known
  }

  lemma StartAdvances(w: World, u: Upgrade, e: Env)
    requires Forward(w, u) && u.stage == Start && Smooth(w, e)
    ensures var w' := RunStart(w, u, e); w'.status.upgrade.Some? && Remaining(w') == Remaining(w) - 1
  {
    PinningCompletes(w, u, e);
    PinningIsPartial(w, u, e);
    var pinned := WithStore(w, Execute(w.settings, w.store, PinToSource(w, u), 0, e).0);
    if u.target !in pinned.store.sets {
      CreationCompletes(pinned, u, e);
    }
  }

  lemma CachesAdvance(w: World, u: Upgrade, job: M.Job, next: Stage, e: Env)
    requires Forward(w, u) && Smooth(w, e)
    requires (u.stage == Prepare && next == Redirect) || (u.stage == Sync && next == Replace)
    ensures RunCaches(w, u, job, next, e).status.upgrade == Some(u.(stage := next))
  {
    var ordered := Ordered(w.settings.client, e.listed.value).value;
    M.TreatAllFinishes(job, ordered, 0, w.store.sets[u.target], e.cacheFaults);
  }

  lemma RedirectAdvances(w: World, u: Upgrade, e: Env)
    requires Forward(w, u) && Smooth(w, e) && (u.stage == Redirect || u.stage == Replace)
    ensures var w' := RunMigration(w, u, e);
            w'.status.upgrade == Some(u.(stage := if u.stage == Redirect then Sync else Cleanup))
  {
    if u.stage == Redirect {
      RedirectCompletes(w.settings, w.status.name, u.target, w.store, e);
    } else {
      ExecuteCompletes(w.settings, w.store, [Select(Admin, Only(u.target))], 0, e,
                       (t: Store) => Served(w.settings, w.status.name, t));
    }
  }

  lemma MigrationAdvances(w: World, u: Upgrade, e: Env)
    requires Forward(w, u) && Smooth(w, e) && (u.stage == Cleanup ==> w.status.wellFormed)
    ensures Remaining(HandleUpgrade(w, e)) == Remaining(w) - 1
  {
    match u.stage
    case Start => StartAdvances(w, u, e);
    case Prepare => CachesAdvance(w, u, M.Connecting, Redirect, e);
    case Sync => CachesAdvance(w, u, M.Syncing, Replace, e);
    case Cleanup => RemovalCompletes(w.settings, u.target, u.source, w.store, e);
    case _ => RedirectAdvances(w, u, e);
  }

  // What a reconciliation leaves as it is on the way.
  predicate SameRequest(w: World, w': World) {
    w'.request == w.request && w'.settings == w.settings && w'.status.wellFormed == w.status.wellFormed
  }

  lemma HandleAdvances(w: World, u: Upgrade, e: Env)
    requires Forward(w, u) && Smooth(w, e) && w.status.wellFormed
    ensures var w' := HandleUpgrade(w, e);
            && Remaining(w') == Remaining(w) - 1 && SameRequest(w, w')
            && match w'.status.upgrade
               case Some(u') => u' == u.(stage := u'.stage)
               case None => w'.status.name == u.target
  {
    MigrationAdvances(w, u, e);
    HandleIsSafe(w, e);
  }

  lemma ReconcileIsHandled(w: World, e: Env)
    requires w.status.upgrade.Some? && w.request.version in w.settings.known && Undisturbed(e)
             && w.status.name in w.store.sets
    ensures var w0 := WithStore(w, Effect(w.settings, w.store, Put(User)));
            Reconcile(w, e) == Observe(HandleUpgrade(w0, e), e)
  {
    var ops := [Put(User)];
    var s1 := Effect(w.settings, w.store, ops[0]);
    assert Execute(w.settings, s1, ops, 1, e) == (s1, true);
  }

  lemma StillForward(w: World, u: Upgrade, w': World, u': Upgrade)
    requires Forward(w, u) && Inv(w') && SameRequest(w, w') && w'.status.upgrade == Some(u')
             && u' == u.(stage := u'.stage)
    ensures Forward(w', u')
  {
  }

  lemma ObservingKeeps(w: World, e: Env)
    requires w.status.wellFormed && e.observed != Some(false)
    ensures var w' := Observe(w, e);
            && Remaining(w') == Remaining(w) && SameRequest(w, w')
            && w'.status.upgrade == w.status.upgrade && w'.status.name == w.status.name
  {
  }

  lemma PuttingKeepsForward(w: World, u: Upgrade)
    requires Forward(w, u)
    ensures var w0 := WithStore(w, Effect(w.settings, w.store, Put(User)));
            Forward(w0, u) && Remaining(w0) == Remaining(w) && SameRequest(w, w0)
  {
  }

  lemma ReconcileAdvances(w: World, u: Upgrade, e: Env)
    requires Forward(w, u) && Smooth(w, e) && w.status.wellFormed
    ensures var w' := Reconcile(w, e);
            && Inv(w') && Remaining(w') == Remaining(w) - 1 && SameRequest(w, w')
            && match w'.status.upgrade
               case Some(u') => Forward(w', u') && u' == u.(stage := u'.stage)
               case None => w'.status.name == u.target
  {
    var w0 := WithStore(w, Effect(w.settings, w.store, Put(User)));
    ReconcileKeeps(w, e);
    ReconcileIsHandled(w, e);
    PuttingKeepsForward(w, u);
    HandleAdvances(w0, u, e);
    var w1 := HandleUpgrade(w0, e);
    ObservingKeeps(w1, e);
    var w' := Reconcile(w, e);
    if w'.status.upgrade.Some? {
      StillForward(w, u, w', w'.status.upgrade.value);
    }
  }

  ghost predicate SmoothRun(w: World, es: seq<Env>) {
    forall k :: 0 <= k < |es| ==> Smooth(w, es[k])
  }

  // An undisturbed upgrade is over after as many reconciliations as it has steps left, seven from the very start: the
  // target is in use, alone, with everything that belongs to it.
  lemma {:induction false} UpgradeFinishes(w: World, u: Upgrade, es: seq<Env>)
    requires Forward(w, u) && w.status.wellFormed && SmoothRun(w, es) && |es| >= Remaining(w)
    ensures var w' := UntilOver(w, es);
            && w'.status.upgrade.None? && w'.status.name == u.target && Plain(u.target, w'.store) && Inv(w')
    decreases |es|
  {
    var next := Reconcile(w, es[0]);
    ReconcileAdvances(w, u, es[0]);
    if next.status.upgrade.Some? {
      UpgradeFinishes(next, next.status.upgrade.value, es[1..]);
    } else {
      assert UntilOver(next, es[1..]) == next;
    }
  }
}
