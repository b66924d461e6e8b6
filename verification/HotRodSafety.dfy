/**
 What every run of a Hot Rod rolling upgrade keeps, and the safety theorems that follow.
 */
module HotRodSafety {
  import opened ApiCalls
  import opened Operands
  import opened CacheNames
  import opened HotRodModel
  import opened HotRodScripts
  import M = CacheMigration
  import N = FreshNames

  function Position(s: Stage): nat {
    match s case Start => 0 case Prepare => 1 case Redirect => 2 case Sync => 3 case Replace => 4 case Cleanup => 5
  }

  // The caches listed when the job was last completed are all finished on the target.
  ghost predicate AllFinished(job: M.Job, listed: seq<string>, caches: M.Caches) {
    forall k :: 0 <= k < |listed| ==> M.Finished(job, listed[k], M.Look(caches, listed[k]))
  }

  ghost predicate Common(w: World) {
    && w.settings.client.Valid() && (!w.settings.exposed ==> w.store.services.outer.Absent?)
    && w.status.operand.version.Some? && w.status.operand.version.value in w.settings.known
    && (forall v :: v in w.settings.known ==> w.settings.known[v].Ref() == v)
  }

  // No upgrade in progress: nothing is left of an earlier one.
  ghost predicate Idle(w: World) {
    && w.past == Past([], false, false) && Plain(w.status.name, w.store)
    && (w.status.operand.phase == Running ==> Present(w.settings, w.status.name, w.store))
  }

  // Only the two StatefulSets of the upgrade exist.
  ghost predicate OnlyThese(u: Upgrade, s: Store) {
    && (forall n :: n in s.sets ==> n == u.source || n == u.target)
    && (forall n :: n in s.configs ==> n == u.source || n == u.target)
    && (forall n :: n in s.services.ping ==> n == u.source || n == u.target)
  }

  // The target and what belongs to it.
  predicate TargetStands(u: Upgrade, s: Store) {
    u.target in s.sets && u.target in s.configs && u.target in s.services.ping
  }

  predicate SourceStands(u: Upgrade, s: Store) {
    u.source in s.sets && u.source in s.configs && u.source in s.services.ping
  }

  // Where the traffic of an upgrade that is not rolled back goes. The administration service selects the source up to
  // Sync and the target from Cleanup on; the external service selects the source up to Prepare and the target from Sync
  // on; in between each may have been redirected already.
  predicate Routed(w: World, u: Upgrade) {
    var admin, outer := w.store.services.admin, w.store.services.outer;
    && (match u.stage
        case Start => u.target in w.store.sets ==> admin == Only(u.source)
        case Prepare => admin == Only(u.source)
        case Redirect => admin == Only(u.source)
        case Sync => admin == Only(u.source)
        case Replace => admin == Only(u.source) || admin == Only(u.target)
        case Cleanup => admin == Only(u.target) || (w.past.cleaning && admin == Any))
    && (w.settings.exposed ==>
        match u.stage
        case Start => u.target in w.store.sets ==> outer == Only(u.source)
        case Prepare => outer == Only(u.source)
        case Redirect => outer == Only(u.source) || outer == Only(u.target)
        case Sync => outer == Only(u.target)
        case Replace => outer == Only(u.target)
        case Cleanup => outer == Only(u.target) || (w.past.cleaning && outer == Any))
  }

  // How far the data have come.
  ghost predicate Moved(w: World, u: Upgrade) {
    u.target in w.store.sets ==>
      && (u.stage == Redirect ==> AllFinished(M.Connecting, w.past.listed, w.store.sets[u.target]))
      && (u.stage == Replace || u.stage == Cleanup ==> AllFinished(M.Syncing, w.past.listed, w.store.sets[u.target]))
  }

  ghost predicate Upgrading(w: World, u: Upgrade) {
    && u.source != u.target && w.status.name == (if u.stage == Cleanup then u.target else u.source)
    && u.sourceVersion.Some? && u.sourceVersion.value in w.settings.known
    && OnlyThese(u, w.store) && Served(w.settings, w.status.name, w.store)
    && (w.past.cleaning ==> u.stage == Cleanup)
    && (w.past.rollingBack ==> w.RequestsSource())
    && (if u.stage == Cleanup then TargetStands(u, w.store) && !w.RequestsSource() else SourceStands(u, w.store))
    && (!w.past.rollingBack ==>
          && (u.stage != Start ==> TargetStands(u, w.store))
          && (u.target in w.store.sets ==> TargetStands(u, w.store))
          && (u.stage == Cleanup && !w.past.cleaning ==> SourceStands(u, w.store))
          && Routed(w, u) && Moved(w, u))
  }

  ghost predicate Inv(w: World) {
    Common(w) && match w.status.upgrade case None => Idle(w) case Some(u) => Upgrading(w, u)
  }

  lemma InitialInv(w: World)
    requires Initial(w) && Common(w)
    ensures Inv(w)
  {
  }

  // ---- the stages ----

  lemma PutUserKeeps(w: World, e: Env)
    requires Inv(w)
    ensures var (s, ok) := Execute(w.settings, w.store, [Put(User)], 0, e);
            && Inv(WithStore(w, s)) && (ok ==> s.services.user == Any)
            && (s == w.store || s == w.store.(services := w.store.services.(user := Any)))
  {
    var ops := [Put(User)];
    var s1 := Effect(w.settings, w.store, Put(User));
    assert Execute(w.settings, s1, ops, 1, e) == (s1, true);
    assert Inv(WithStore(w, s1));
  }

  lemma ScheduleKeeps(w: World, e: Env)
    requires Inv(w) && w.status.upgrade.None? && w.request.version in w.settings.known && w.Required()
    ensures Inv(Schedule(w, e))
  {
    N.TargetIsNotSource(w.status.name, w.settings.max);
  }

  lemma StartKeeps(w: World, u: Upgrade, e: Env)
    requires Inv(w) && w.status.upgrade == Some(u) && u.stage == Start && !w.RequestsSource()
    ensures Inv(RunStart(w, u, e))
  {
    PinningIsPartial(w, u, e);
    PinningAchieves(w, u, e);
    var (s, ok) := Execute(w.settings, w.store, PinToSource(w, u), 0, e);
    var pinned := WithStore(w, s);
    assert Inv(pinned);
    if ok && u.target !in s.sets {
      CreationRuns(pinned, u, e);
    }
  }

  lemma CachesOfTargetKeep(w: World, u: Upgrade, caches: M.Caches)
    requires Inv(w) && w.status.upgrade == Some(u) && !w.RequestsSource() && (u.stage == Prepare || u.stage == Sync)
    ensures Inv(WithStore(w, w.store.(sets := w.store.sets[u.target := caches])))
  {
  }

  lemma NextStageKeeps(w: World, u: Upgrade, job: M.Job, next: Stage, listed: seq<string>)
    requires Inv(w) && w.status.upgrade == Some(u) && !w.RequestsSource() && u.target in w.store.sets
    requires (u.stage == Prepare && job == M.Connecting && next == Redirect)
             || (u.stage == Sync && job == M.Syncing && next == Replace)
    requires AllFinished(job, listed, w.store.sets[u.target])
    ensures Inv(w.(status := w.status.(upgrade := Some(u.(stage := next))), past := w.past.(listed := listed)))
    ensures Inv(w.(past := w.past.(listed := listed)))
  {
  }

  lemma CachesKeep(w: World, u: Upgrade, job: M.Job, next: Stage, e: Env)
    requires Inv(w) && w.status.upgrade == Some(u) && !w.RequestsSource()
    requires (u.stage == Prepare && job == M.Connecting && next == Redirect)
             || (u.stage == Sync && job == M.Syncing && next == Replace)
    ensures Inv(RunCaches(w, u, job, next, e))
  {
    if u.target in w.store.sets && e.bothListed {
      var (caches, result) := M.Migrate(job, w.settings.client, e.listed, w.store.sets[u.target], e.cacheFaults);
      CachesOfTargetKeep(w, u, caches);
      if e.listed.Some? {
        CachesFinish(w.settings.client, job, e.listed.value, w.store.sets[u.target], e.cacheFaults);
        var done := WithStore(w, w.store.(sets := w.store.sets[u.target := caches]));
        if result == M.Done {
          NextStageKeeps(done, u, job, next, e.listed.value);
        }
      }
    }
  }

  // A completed job has finished every listed cache.
  lemma CachesFinish(client: Client, job: M.Job, names: seq<string>, caches: M.Caches, f: M.Faults)
    requires client.Valid()
    ensures var (next, result) := M.Migrate(job, client, Some(names), caches, f);
            result == M.Done ==> AllFinished(job, names, next)
  {
    if Ordered(client, names).Some? {
      var ordered := Ordered(client, names).value;
      M.TreatAllFinishes(job, ordered, 0, caches, f);
      OrderedCovers(client, names);
    }
  }

  lemma OrderedCovers(client: Client, names: seq<string>)
    requires client.Valid() && Ordered(client, names).Some?
    ensures forall k :: 0 <= k < |names| ==> names[k] in Ordered(client, names).value
  {
    UserCachesSplit(client, names);
    var ordered, users := Ordered(client, names).value, UserCaches(client, names);
    assert ordered[0] == client.metadata && ordered[1] == client.script;
    forall k | 0 <= k < |names| ensures names[k] in ordered {
      if !client.Internal(names[k]) {
        assert names[k] in multiset(names) && names[k] in multiset(users);
        var j :| 0 <= j < |users| && users[j] == names[k];
        assert ordered[j + 2] == names[k];
      }
    }
  }

  lemma RedirectKeeps(w: World, u: Upgrade, e: Env)
    requires Inv(w) && w.status.upgrade == Some(u) && u.stage == Redirect && !w.RequestsSource()
    ensures Inv(RunRedirect(w, u, e))
  {
    RedirectRuns(w.settings, u.target, w.store, e);
  }

  lemma ReplaceKeeps(w: World, u: Upgrade, e: Env)
    requires Inv(w) && w.status.upgrade == Some(u) && u.stage == Replace && !w.RequestsSource()
    ensures Inv(RunReplace(w, u, e))
  {
    var ops := [Select(Admin, Only(u.target))];
    var s1 := Effect(w.settings, w.store, ops[0]);
    assert Execute(w.settings, s1, ops, 1, e) == (s1, true);
  }

  lemma CleanupKeeps(w: World, u: Upgrade, e: Env)
    requires Inv(w) && w.status.upgrade == Some(u) && u.stage == Cleanup && !w.RequestsSource()
    ensures Inv(RunCleanup(w, u, e))
  {
    if w.status.wellFormed {
      RemovalIsPartial(w.settings, u.target, u.source, w.store, e);
      RemovalAchieves(w.settings, u.target, u.source, w.store, e);
    }
  }

  // The store once the rollback is complete.
  function RolledBack(w: World, u: Upgrade): Store {
    Removed(w.settings, w.status.name, u.target, w.store)
  }

  // What a rollback leaves behind, wherever it is interrupted.
  lemma RollbackRuns(w: World, u: Upgrade, e: Env)
    requires w.status.name != u.target
    ensures var (t, ok) := Execute(w.settings, w.store, RollbackScript(w, u), 0, e);
            && (t.sets == w.store.sets || t.sets == w.store.sets - {u.target})
            && (t.configs == w.store.configs || t.configs == w.store.configs - {u.target})
            && (forall n :: n in w.store.services.ping && n != u.target ==> n in t.services.ping)
            && (forall n :: n in t.services.ping ==> n in w.store.services.ping)
            && (w.store.services.outer.Absent? ==> t.services.outer.Absent? || w.settings.exposed)
            && (Served(w.settings, w.status.name, w.store) ==> Served(w.settings, w.status.name, t))
            && Removed(w.settings, w.status.name, u.target, t) == RolledBack(w, u)
            && (ok ==> t == RolledBack(w, u))
  {
    var g, name, s := w.settings, w.status.name, w.store;
    ExecuteBoth(g, s, RedirectTo(g, u.source), Removal(g, name, u.target), 0, e);
    RedirectRuns(g, u.source, s, e);
    var (s1, ok1) := Execute(g, s, RedirectTo(g, u.source), 0, e);
    assert Removed(g, name, u.target, s1) == RolledBack(w, u);
    if ok1 {
      RemovalIsPartial(g, name, u.target, s1, e);
      RemovalAchieves(g, name, u.target, s1, e);
    }
  }

  lemma RollbackKeeps(w: World, u: Upgrade, e: Env)
    requires Inv(w) && w.status.upgrade == Some(u) && w.RequestsSource()
    ensures Inv(RunRollback(w, u, e))
  {
    RollbackRuns(w, u, e);
  }

  // ---- whole runs ----

  lemma HandleUpgradeKeeps(w: World, e: Env)
    requires Inv(w)
    ensures Inv(HandleUpgrade(w, e))
  {
    if w.status.upgrade.Some? && e.pods {
      var u := w.status.upgrade.value;
      if w.RequestsSource() {
        RollbackKeeps(w, u, e);
      } else {
        match u.stage
        case Start => StartKeeps(w, u, e);
        case Prepare => CachesKeep(w, u, M.Connecting, Redirect, e);
        case Redirect => RedirectKeeps(w, u, e);
        case Sync => CachesKeep(w, u, M.Syncing, Replace, e);
        case Replace => ReplaceKeeps(w, u, e);
        case Cleanup => CleanupKeeps(w, u, e);
      }
    }
  }

  // The StatefulSet in use stands at the end of a run that gets there.
  ghost predicate Standing(w: World) {
    w.status.upgrade.None? ==> Present(w.settings, w.status.name, w.store)
  }

  lemma EndsStanding(w: World, e: Env)
    requires Inv(w) && Standing(w)
    ensures Standing(HandleUpgrade(w, e))
  {
    if w.status.upgrade.Some? && e.pods {
      var u := w.status.upgrade.value;
      if w.RequestsSource() {
        RollbackRuns(w, u, e);
      } else if u.stage == Cleanup && w.status.wellFormed {
        RemovalIsPartial(w.settings, u.target, u.source, w.store, e);
        RemovalAchieves(w.settings, u.target, u.source, w.store, e);
      }
    }
  }

  lemma ObserveKeeps(w: World, e: Env)
    requires Inv(w) && Standing(w)
    ensures Inv(Observe(w, e))
  {
  }

  lemma ManageKeeps(w: World, e: Env)
    requires Inv(w) && Standing(w)
    ensures Inv(ManageFrom(w, e))
  {
    HandleUpgradeKeeps(w, e);
    EndsStanding(w, e);
    ObserveKeeps(HandleUpgrade(w, e), e);
  }

  lemma AfterScheduleKeeps(w: World, e: Env)
    requires Inv(w) && !w.store.services.user.Absent?
    ensures Inv(AfterSchedule(w, e))
  {
    if w.status.upgrade.Some? {
      ManageKeeps(w, e);
    } else {
      ProvisionRuns(w, e);
      var (w1, ok) := Provision(w, e);
      assert Common(w1);
      assert Inv(w1);
      if ok { ManageKeeps(w1, e); }
    }
  }

  lemma ReconcileKeeps(w: World, e: Env)
    requires Inv(w)
    ensures Inv(Reconcile(w, e))
  {
    PutUserKeeps(w, e);
    var (s, ok) := Execute(w.settings, w.store, [Put(User)], 0, e);
    var w0 := WithStore(w, s);
    if w.request.version in w.settings.known && ok {
      if w.status.upgrade.None? && w0.Required() { ScheduleKeeps(w0, e); } else { AfterScheduleKeeps(w0, e); }
    }
  }

  lemma StepKeeps(w: World, ev: Event)
    requires Inv(w) && Legal(w, ev)
    ensures Inv(Step(w, ev))
  {
    if ev.Reconciled? {
      ReconcileKeeps(w, ev.e);
    }
  }

  lemma {:induction false} RunsKeep(w: World, evs: seq<Event>)
    requires Initial(w) && Common(w) && LegalRun(w, evs)
    ensures Inv(Steps(w, evs))
  {
    if evs != [] {
      RunsKeep(w, evs[..|evs| - 1]);
      StepKeeps(Steps(w, evs[..|evs| - 1]), evs[|evs| - 1]);
    }
  }

  // ---- the safety theorems ----

  // What one reconciliation may do to the stage of an upgrade.
  predicate StageMoves(w: World, w': World) {
    match w.status.upgrade
    case None =>
      w'.status.name == w.status.name
      && (w'.status.upgrade.None?
          || w'.status.upgrade.value
             == Upgrade(Start, w.status.name, N.Generate(w.status.name, w.settings.max), w.status.operand.version))
    case Some(u) =>
      match w'.status.upgrade
      case Some(u') =>
        && u' == u.(stage := u'.stage) && Position(u.stage) <= Position(u'.stage) <= Position(u.stage) + 1
        && w'.status.name == (if u'.stage == Cleanup then u.target else u.source)
      case None =>
        (w'.status.name == u.source && w.RequestsSource()) || (w'.status.name == u.target && u.stage == Cleanup)
  }

  // What one reconciliation may remove: the source only in Cleanup, with the custom resource referring to the target
  // and every cache listed on the source at the Sync stage fetched and then disconnected; the target only in a
  // rollback.
  ghost predicate RemovesSafely(w: World, w': World) {
    forall n :: n in w.store.sets && n !in w'.store.sets ==>
      && w.status.upgrade.Some?
      && var u := w.status.upgrade.value;
         if n == u.source
         then && u.stage == Cleanup && w.status.name == u.target && u.target in w'.store.sets
              && AllFinished(M.Syncing, w.past.listed, w'.store.sets[u.target])
         else n == u.target && w.RequestsSource() && u.source in w'.store.sets
  }

  // A stage is left only when its work was done: for Prepare and Sync, when every cache the source listed was treated;
  // and only by an update that takes effect.
  predicate AdvancesOnlyWhenDone(w: World, w': World, e: Env) {
    && (w.status.upgrade.Some? && w'.status.upgrade.None? ==> e.Of(DoneUpdate) != Failed)
    && (w.status.upgrade.Some? && w'.status.upgrade.Some? && w'.status.upgrade != w.status.upgrade ==>
          && !w.RequestsSource() && e.Of(StageUpdate) != Failed
          && match w.status.upgrade.value.stage
             case Start => e.formed
             case Prepare => ListedAndTreated(w, w', e)
             case Sync => ListedAndTreated(w, w', e)
             case _ => true)
  }

  predicate ListedAndTreated(w: World, w': World, e: Env) {
    && e.listed.Some? && Ordered(w.settings.client, e.listed.value).Some? && w'.past.listed == e.listed.value
  }

  ghost predicate Safe(w: World, w': World, e: Env) {
    StageMoves(w, w') && RemovesSafely(w, w') && AdvancesOnlyWhenDone(w, w', e)
  }

  lemma StartIsSafe(w: World, u: Upgrade, e: Env)
    requires Inv(w) && w.status.upgrade == Some(u) && !w.RequestsSource() && u.stage == Start
    ensures Safe(w, RunStart(w, u, e), e)
  {
    PinningIsPartial(w, u, e);
    var (s, ok) := Execute(w.settings, w.store, PinToSource(w, u), 0, e);
    if ok && u.target !in s.sets {
      CreationRuns(WithStore(w, s), u, e);
    }
  }

  lemma CachesAreSafe(w: World, u: Upgrade, job: M.Job, next: Stage, e: Env)
    requires Inv(w) && w.status.upgrade == Some(u) && !w.RequestsSource()
    requires (u.stage == Prepare && next == Redirect) || (u.stage == Sync && next == Replace)
    ensures Safe(w, RunCaches(w, u, job, next, e), e)
  {
  }

  lemma RedirectingIsSafe(w: World, u: Upgrade, e: Env)
    requires Inv(w) && w.status.upgrade == Some(u) && !w.RequestsSource() && (u.stage == Redirect || u.stage == Replace)
    ensures Safe(w, RunMigration(w, u, e), e)
  {
    if u.stage == Redirect {
      RedirectRuns(w.settings, u.target, w.store, e);
    } else {
      var ops := [Select(Admin, Only(u.target))];
      var s1 := Effect(w.settings, w.store, ops[0]);
      assert Execute(w.settings, s1, ops, 1, e) == (s1, true);
    }
  }

  lemma MigrationIsSafe(w: World, u: Upgrade, e: Env)
    requires Inv(w) && w.status.upgrade == Some(u) && !w.RequestsSource() && u.stage != Cleanup
    ensures Safe(w, RunMigration(w, u, e), e)
  {
    match u.stage
    case Start => StartIsSafe(w, u, e);
    case Prepare => CachesAreSafe(w, u, M.Connecting, Redirect, e);
    case Sync => CachesAreSafe(w, u, M.Syncing, Replace, e);
    case _ => RedirectingIsSafe(w, u, e);
  }

  lemma CleanupIsSafe(w: World, u: Upgrade, e: Env)
    requires Inv(w) && w.status.upgrade == Some(u) && !w.RequestsSource() && u.stage == Cleanup
    ensures Safe(w, RunCleanup(w, u, e), e)
  {
    if w.status.wellFormed {
      RemovalIsPartial(w.settings, u.target, u.source, w.store, e);
      RemovalAchieves(w.settings, u.target, u.source, w.store, e);
    }
  }

  lemma HandleIsSafe(w: World, e: Env)
    requires Inv(w)
    ensures Safe(w, HandleUpgrade(w, e), e)
  {
    if w.status.upgrade.Some? && e.pods {
      var u := w.status.upgrade.value;
      if w.RequestsSource() {
        RollbackRuns(w, u, e);
      } else if u.stage == Cleanup {
        CleanupIsSafe(w, u, e);
      } else {
        MigrationIsSafe(w, u, e);
      }
    }
  }

  // Rewriting the user service changes nothing about what is safe.
  lemma SafeAfterPut(w: World, w0: World, w': World, e: Env)
    requires w0 == WithStore(w, w0.store) && w0.store == w.store.(services := w0.store.services) && Safe(w0, w', e)
    ensures Safe(w, w', e)
  {
    assert w0.RequestsSource() == w.RequestsSource();
    forall n | n in w.store.sets && n !in w'.store.sets
      ensures && w.status.upgrade.Some?
              && var u := w.status.upgrade.value;
                 if n == u.source
                 then && u.stage == Cleanup && w.status.name == u.target && u.target in w'.store.sets
                      && AllFinished(M.Syncing, w.past.listed, w'.store.sets[u.target])
                 else n == u.target && w.RequestsSource() && u.source in w'.store.sets
    {
      assert n in w0.store.sets;
    }
  }

  lemma ManageIsSafe(w: World, e: Env)
    requires Inv(w)
    ensures Safe(w, ManageFrom(w, e), e)
  {
    HandleIsSafe(w, e);
    var w1 := HandleUpgrade(w, e);
    assert StageMoves(w, Observe(w1, e)) == StageMoves(w, w1);
  }

  lemma IdleIsSafe(w: World, e: Env)
    requires Inv(w) && w.status.upgrade.None?
    ensures Safe(w, AfterSchedule(w, e), e)
  {
    ProvisionRuns(w, e);
    var (w1, ok) := Provision(w, e);
    assert HandleUpgrade(w1, e) == w1;
  }

  lemma ReconcileIsSafe(w: World, e: Env)
    requires Inv(w)
    ensures Safe(w, Reconcile(w, e), e)
  {
    PutUserKeeps(w, e);
    var (s, ok) := Execute(w.settings, w.store, [Put(User)], 0, e);
    var w0, w' := WithStore(w, s), Reconcile(w, e);
    if w'.status != w.status || w'.store.sets != w.store.sets || w'.past != w.past {
      if w.status.upgrade.None? {
        if !w0.Required() {
          IdleIsSafe(w0, e);
          SafeAfterPut(w, w0, w', e);
        }
      } else {
        ManageIsSafe(w0, e);
        SafeAfterPut(w, w0, w', e);
      }
    }
  }

  // Over every run: stages never skip, the source StatefulSet is removed only after its data have moved, and a panic
  // while the cache names are ordered never advances a stage.
  lemma EveryReconcileIsSafe(w: World, evs: seq<Event>, e: Env)
    requires Initial(w) && Common(w) && LegalRun(w, evs)
    ensures var now := Steps(w, evs); Safe(now, Reconcile(now, e), e)
  {
    RunsKeep(w, evs);
    ReconcileIsSafe(Steps(w, evs), e);
  }

  // Over every run: until a rollback begins, the administration and external services of an upgrade go where its stage
  // says; they select the target only once every cache listed on the source was connected to it.
  lemma TrafficFollowsTheStage(w: World, evs: seq<Event>)
    requires Initial(w) && Common(w) && LegalRun(w, evs)
    ensures var now := Steps(w, evs);
            now.status.upgrade.Some? && !now.past.rollingBack ==>
              && Routed(now, now.status.upgrade.value) && Moved(now, now.status.upgrade.value)
  {
    RunsKeep(w, evs);
  }

  // Over every run: without an upgrade there is at most one StatefulSet, and no service is pinned to one.
  lemma IdleMeansOneStatefulSet(w: World, evs: seq<Event>)
    requires Initial(w) && Common(w) && LegalRun(w, evs)
    ensures var now := Steps(w, evs);
            now.status.upgrade.None? ==> Plain(now.status.name, now.store) && |now.store.sets.Keys| <= 1
  {
    RunsKeep(w, evs);
    var now := Steps(w, evs);
    if now.status.upgrade.None? {
      assert now.store.sets.Keys <= {now.status.name};
      assert |now.store.sets.Keys| <= 1 by {
        if now.status.name in now.store.sets {
          assert now.store.sets.Keys == {now.status.name};
        } else {
          assert now.store.sets.Keys == {};
        }
      }
    }
  }
}
