/**
 The stages of a Hot Rod rolling upgrade as the operator executes them: one object whose fields are changed in place.
 Every method is proved to do exactly what the function of the same stage in HotRodModel says.
 */
module HotRodOperator {
  import opened ApiCalls
  import opened Operands
  import opened HotRodModel
  import M = CacheMigration
  import S = HotRodScripts
  import N = FreshNames

  class UpgradeRequest {
    const settings: Settings
    const request: Request
    var status: Status
    var sets: map<Name, M.Caches>
    var configs: set<Name>
    var services: Services
    ghost var past: Past

    function Stored(): Store
      reads this
    {
      Store(sets, configs, services)
    }

    ghost function View(): World
      reads this
    {
      World(settings, request, status, Stored(), past)
    }

    constructor (w: World)
      ensures View() == w
    {
      settings, request, status, past := w.settings, w.request, w.status, w.past;
      sets, configs, services := w.store.sets, w.store.configs, w.store.services;
    }

    // One call to the API server.
    method Perform(op: Op, e: Env) returns (ok: bool)
      modifies this`sets, this`configs, this`services
      ensures ok <==> Enabled(old(Stored()), op) && e.Of(Do(op)) == Ok
      ensures Stored() == if Enabled(old(Stored()), op) && e.Of(Do(op)) != Failed
                          then Effect(settings, old(Stored()), op) else old(Stored())
    {
      if !Enabled(Stored(), op) || e.Of(Do(op)) == Failed {
        return false;
      }
      match op {
        case Put(service) => services := services.With(service, Any);
        case PutPing(n) => services := services.(ping := services.ping[n := Any]);
        case AddConfig(n) => configs := configs + {n};
        case AddSet(n) => sets := sets[n := settings.native];
        case ClonePing(_, n) => services := services.(ping := services.ping[n := Only(n)]);
        case Select(service, to) => services := services.With(service, to);
        case SelectPing(n, to) => services := services.(ping := services.ping[n := to]);
        case DeleteConfig(n) => configs := configs - {n};
        case DeletePing(n) => services := services.(ping := services.ping - {n});
        case DeleteSet(n) => sets := sets - {n};
      }
      ok := e.Of(Do(op)) == Ok;
    }

    method RedirectServices(to: Name, e: Env) returns (ok: bool)
      modifies this`sets, this`configs, this`services
      ensures (Stored(), ok) == Execute(settings, old(Stored()), RedirectTo(settings, to), 0, e)
    {
      ghost var s0, ops := Stored(), RedirectTo(settings, to);
      ok := Perform(Select(User, Only(to)), e);
      if !ok { return; }
      assert Execute(settings, Stored(), ops, 1, e) == Execute(settings, s0, ops, 0, e);
      if settings.exposed {
        ok := Perform(Select(Outer, Only(to)), e);
        assert ok ==> Execute(settings, Stored(), ops, 2, e) == Execute(settings, s0, ops, 0, e);
      }
    }

    // The StatefulSet label is removed from the selectors.
    method RemoveStatefulSetSelectors(e: Env) returns (ok: bool)
      modifies this`sets, this`configs, this`services
      ensures (Stored(), ok) == Execute(settings, old(Stored()), ClearSelectors(settings, status.name), 0, e)
    {
      ghost var s0, ops := Stored(), ClearSelectors(settings, status.name);
      ok := Perform(Select(Admin, Any), e);
      if !ok { return; }
      assert Execute(settings, Stored(), ops, 1, e) == Execute(settings, s0, ops, 0, e);
      ok := Perform(SelectPing(status.name, Any), e);
      if !ok { return; }
      assert Execute(settings, Stored(), ops, 2, e) == Execute(settings, s0, ops, 0, e);
      ok := Perform(Select(User, Any), e);
      if !ok { return; }
      assert Execute(settings, Stored(), ops, 3, e) == Execute(settings, s0, ops, 0, e);
      if settings.exposed {
        ok := Perform(Select(Outer, Any), e);
        assert ok ==> Execute(settings, Stored(), ops, 4, e) == Execute(settings, s0, ops, 0, e);
      }
    }

    method RemoveStatefulSetResources(gone: Name, e: Env) returns (ok: bool)
      modifies this`sets, this`configs, this`services
      ensures (Stored(), ok) == Execute(settings, old(Stored()), Removal(settings, status.name, gone), 0, e)
    {
      var resources := Deletions(gone);
      S.ExecuteBoth(settings, Stored(), ClearSelectors(settings, status.name), resources, 0, e);
      ok := RemoveStatefulSetSelectors(e);
      if !ok { return; }
      ghost var s1 := Stored();
      var k := 0;
      while k < |resources|
        invariant 0 <= k <= |resources| && ok
        invariant Execute(settings, Stored(), resources, k, e) == Execute(settings, s1, resources, 0, e)
      {
        ok := Perform(resources[k], e);
        if !ok { return; }
        k := k + 1;
      }
    }

    method UpdateStage(next: Stage, e: Env)
      requires status.upgrade.Some?
      modifies this`status
      ensures View() == SetStage(old(View()), next, e)
    {
      if e.Of(StageUpdate) != Failed {
        status := status.(upgrade := Some(status.upgrade.value.(stage := next)));
      }
    }

    // The services are pinned to the StatefulSet in use.
    method PinServices(name: Name, e: Env) returns (ok: bool)
      modifies this`sets, this`configs, this`services
      ensures (Stored(), ok) == Execute(settings, old(Stored()), PinTo(settings, name), 0, e)
    {
      ghost var s0, ops := Stored(), PinTo(settings, name);
      ok := Perform(Select(Admin, Only(name)), e);
      if !ok { return; }
      assert Execute(settings, Stored(), ops, 1, e) == Execute(settings, s0, ops, 0, e);
      ok := Perform(SelectPing(name, Only(name)), e);
      if !ok { return; }
      assert Execute(settings, Stored(), ops, 2, e) == Execute(settings, s0, ops, 0, e);
      ok := Perform(Select(User, Only(name)), e);
      if !ok { return; }
      assert Execute(settings, Stored(), ops, 3, e) == Execute(settings, s0, ops, 0, e);
      if settings.exposed {
        ok := Perform(Select(Outer, Only(name)), e);
        assert ok ==> Execute(settings, Stored(), ops, 4, e) == Execute(settings, s0, ops, 0, e);
      }
    }

    // The ping service of the target comes first.
    method PrepareServices(u: Upgrade, e: Env) returns (ok: bool)
      modifies this`sets, this`configs, this`services
      ensures (Stored(), ok) == Execute(settings, old(Stored()), PinToSource(old(View()), u), 0, e)
    {
      ghost var s0, ops := Stored(), PinToSource(View(), u);
      if u.target !in services.ping {
        ghost var clone := [ClonePing(status.name, u.target)];
        S.ExecuteBoth(settings, s0, clone, PinTo(settings, status.name), 0, e);
        ok := Perform(ClonePing(status.name, u.target), e);
        assert ok ==>
            Execute(settings, s0, clone, 0, e) == Execute(settings, Stored(), clone, 1, e) == (Stored(), true);
        if !ok { return; }
      } else {
        assert ops == PinTo(settings, status.name);
      }
      ok := PinServices(status.name, e);
    }

    method CreateTargetSet(u: Upgrade, e: Env)
      modifies this`sets, this`configs, this`services
      ensures Stored() == Execute(settings, old(Stored()), CreateTarget(old(View()), u), 0, e).0
    {
      ghost var s0, ops := Stored(), CreateTarget(View(), u);
      ghost var n := 0;
      if u.target !in configs {
        assert ops == [AddConfig(u.target), AddSet(u.target)];
        var ok := Perform(AddConfig(u.target), e);
        if !ok { return; }
        n := 1;
      }
      assert |ops| == n + 1 && ops[n] == AddSet(u.target);
      assert Execute(settings, Stored(), ops, n, e) == Execute(settings, s0, ops, 0, e);
      var ok := Perform(AddSet(u.target), e);
      assert ok ==> Execute(settings, Stored(), ops, n + 1, e) == (Stored(), true);
    }

    method CreateNewStatefulSet(u: Upgrade, e: Env)
      requires status.upgrade == Some(u)
      modifies this
      ensures View() == RunStart(old(View()), u, e)
    {
      var ok := PrepareServices(u, e);
      if !ok { return; }
      if u.target !in sets {
        CreateTargetSet(u, e);
      } else if e.formed {
        UpdateStage(Prepare, e);
      }
    }

    // The caches of the target live in its servers.
    method MigrateCaches(u: Upgrade, job: M.Job, next: Stage, e: Env)
      requires status.upgrade == Some(u)
      modifies this
      ensures View() == RunCaches(old(View()), u, job, next, e)
    {
      if u.target !in sets || !e.bothListed { return; }
      var target := new M.Target(sets[u.target]);
      var result;
      if job == M.Connecting {
        result := target.ConnectCaches(settings.client, e.listed, e.cacheFaults);
      } else {
        result := target.SyncCaches(settings.client, e.listed, e.cacheFaults);
      }
      sets := sets[u.target := target.caches];
      if result == M.Done {
        past := past.(listed := e.listed.value);
        UpdateStage(next, e);
      }
    }

    method RedirectService(u: Upgrade, e: Env)
      requires status.upgrade == Some(u)
      modifies this
      ensures View() == RunRedirect(old(View()), u, e)
    {
      var ok := RedirectServices(u.target, e);
      if ok {
        UpdateStage(Sync, e);
      }
    }

    method ReplaceStatefulSet(u: Upgrade, e: Env)
      requires status.upgrade == Some(u)
      modifies this
      ensures View() == RunReplace(old(View()), u, e)
    {
      ghost var s0, ops := Stored(), [Select(Admin, Only(u.target))];
      var ok := Perform(Select(Admin, Only(u.target)), e);
      assert (Stored(), ok) == Execute(settings, s0, ops, 0, e);
      if ok && e.Of(StageUpdate) != Failed {
        status := status.(name := u.target, operand := status.operand.(phase := Running),
                          upgrade := Some(u.(stage := Cleanup)));
      }
    }

    method CleanUp(u: Upgrade, e: Env)
      requires status.upgrade == Some(u)
      modifies this
      ensures View() == RunCleanup(old(View()), u, e)
    {
      if !status.wellFormed { return; }
      past := past.(cleaning := true);
      var ok := RemoveStatefulSetResources(u.source, e);
      if ok && e.Of(DoneUpdate) != Failed {
        status := status.(upgrade := None);
        past := Past([], false, false);
      }
    }

    method Rollback(u: Upgrade, e: Env)
      requires status.upgrade == Some(u) && View().RequestsSource()
      modifies this
      ensures View() == RunRollback(old(View()), u, e)
    {
      past := past.(rollingBack := true);
      ghost var s0 := Stored();
      S.ExecuteBoth(settings, s0, RedirectTo(settings, u.source), Removal(settings, status.name, u.target), 0, e);
      var ok := RedirectServices(u.source, e);
      if !ok { return; }
      ok := RemoveStatefulSetResources(u.target, e);
      if ok && e.Of(DoneUpdate) != Failed {
        var operand := StatusOf(request.image, Running, settings.known[u.sourceVersion.value]);
        status := status.(name := u.source, upgrade := None, operand := operand);
        past := Past([], false, false);
      }
    }

    method HandleMigration(u: Upgrade, e: Env)
      requires status.upgrade == Some(u)
      modifies this
      ensures View() == RunMigration(old(View()), u, e)
    {
      match u.stage {
        case Start => CreateNewStatefulSet(u, e);
        case Prepare => MigrateCaches(u, M.Connecting, Redirect, e);
        case Redirect => RedirectService(u, e);
        case Sync => MigrateCaches(u, M.Syncing, Replace, e);
        case Replace => ReplaceStatefulSet(u, e);
        case Cleanup => CleanUp(u, e);
      }
    }

    method HotRodRollingUpgrade(e: Env)
      modifies this
      ensures View() == HandleUpgrade(old(View()), e)
    {
      if status.upgrade.None? || !e.pods { return; }
      var u := status.upgrade.value;
      if u.sourceVersion.Some? && u.sourceVersion.value !in settings.known { return; }
      if && u.sourceVersion.Some? && request.version in settings.known
         && settings.known[request.version].EQ(settings.known[u.sourceVersion.value]) {
        Rollback(u, e);
      } else if Migrating !in e.stops {
        HandleMigration(u, e);
      }
    }

    method ScheduleHotRodRollingUpgrade(e: Env) returns (scheduled: bool)
      requires request.version in settings.known
      modifies this`status
      ensures var w := old(View());
              && scheduled == (w.status.upgrade.None? && w.Required())
              && View() == if scheduled then Schedule(w, e) else w
    {
      scheduled := && status.upgrade.None?
                   && UpgradeRequired(status.operand, request.image, settings.known[request.version], settings.known);
      if !scheduled { return; }
      if e.Of(ScheduleUpdate) != Failed {
        var name := status.name;
        status := status.(upgrade := Some(Upgrade(Start, name, N.Generate(name, settings.max), status.operand.version)),
                          operand := StatusOf(request.image, Pending, settings.known[request.version]));
      }
    }

    // The cluster service is rewritten by every run.
    method ClusterService(e: Env) returns (ok: bool)
      modifies this`sets, this`configs, this`services
      ensures (Stored(), ok) == Execute(settings, old(Stored()), [Put(User)], 0, e)
    {
      ghost var s0, ops := Stored(), [Put(User)];
      ok := Perform(Put(User), e);
      assert ok ==> Execute(settings, Stored(), ops, 1, e) == Execute(settings, s0, ops, 0, e);
    }

    // ConfigMaps, services and the StatefulSet of the name in use, then the external service.
    method ProvisionResources(e: Env) returns (ok: bool)
      modifies this`sets, this`configs, this`services
      ensures (View(), ok) == Provision(old(View()), e)
    {
      var n := status.name;
      ghost var s0, ops := Stored(), ProvisionScript(View());
      ok := Perform(AddConfig(n), e);
      if !ok { return; }
      assert Execute(settings, Stored(), ops, 1, e) == Execute(settings, s0, ops, 0, e);
      ok := Perform(PutPing(n), e);
      if !ok { return; }
      assert Execute(settings, Stored(), ops, 2, e) == Execute(settings, s0, ops, 0, e);
      ok := Perform(Put(Admin), e);
      if !ok { return; }
      assert Execute(settings, Stored(), ops, 3, e) == Execute(settings, s0, ops, 0, e);
      if n !in sets {
        ok := Perform(AddSet(n), e);
        assert ok ==> Execute(settings, Stored(), ops, 4, e) == Execute(settings, s0, ops, 0, e);
        if !ok { return; }
      }
      if Exposing in e.stops { return false; }
      if settings.exposed {
        ghost var s1, outer := Stored(), [Put(Outer)];
        ok := Perform(Put(Outer), e);
        assert ok ==> Execute(settings, Stored(), outer, 1, e) == Execute(settings, s1, outer, 0, e);
      }
    }

    // The WellFormed condition is recorded at the end of a run.
    method ObserveConditions(e: Env)
      modifies this`status
      ensures View() == Observe(old(View()), e)
    {
      if e.observed.Some? {
        status := status.(wellFormed := e.observed.value);
        if e.observed.value {
          status := status.(operand := status.operand.(phase := Running));
        }
      }
    }

    // One reconciliation. The handlers to run are chosen by what was stored when it began; an upgrade scheduled in it
    // ends it.
    method Reconcile(e: Env)
      modifies this
      ensures View() == HotRodModel.Reconcile(old(View()), e)
    {
      if request.version !in settings.known { return; }
      var upgrading := status.upgrade.Some?;
      var ok := ClusterService(e);
      if !ok || Scheduling in e.stops { return; }
      var scheduled := ScheduleHotRodRollingUpgrade(e);
      if scheduled { return; }
      if !upgrading {
        if Provisioning in e.stops { return; }
        ok := ProvisionResources(e);
        if !ok { return; }
      }
      if Managing in e.stops || status.name !in sets { return; }
      HotRodRollingUpgrade(e);
      ObserveConditions(e);
    }
  }
}
