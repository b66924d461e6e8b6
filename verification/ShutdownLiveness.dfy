/**
 Progress of the Shutdown-upgrade cluster: with the platform cooperating and no call failing, every reconciliation
 brings the cluster nearer to rest, unless it is in one of four states that no reconciliation leaves.
 */
module ShutdownLiveness {
  import opened ApiCalls
  import opened FlowControl
  import opened Operands
  import opened ShutdownModel
  import opened ShutdownPodsProofs
  import opened ShutdownSafety
  import W = WellFormed

  // The states that need the user: an unknown version; an upgrade whose StatefulSet is gone, or whose replicas the
  // user raised before the servers were stopped; and a resume with the wrong number of replicas.
  ghost predicate Blocked(w: World) {
    || w.spec.version !in w.known
    || (w.status.upgrade && w.cluster.stateful.None?)
    || (w.status.upgrade && !w.status.stopping && w.status.wanted == 0 && w.spec.replicas > 0)
    || (&& !w.status.upgrade && w.status.graceful && !w.Required()
        && w.status.wanted > 0 && w.spec.replicas != 0 && w.spec.replicas != w.status.wanted)
  }

  // Nothing left to do: the cluster runs at the requested size, or the user has shut it down.
  ghost predicate AtRest(w: World)
    requires w.spec.version in w.known
  {
    && !w.status.upgrade && !w.status.stopping && !w.Required() && w.cluster.stateful.Some?
    && w.Size() == w.spec.replicas
    && if w.spec.replicas == 0 then w.status.graceful
       else && Stable(w) && w.status.operand.phase == Running && !w.status.scalingUp
            && w.status.replicas == w.spec.replicas && w.status.wanted == 0 && !w.past.awaiting
  }

  // An upgrade that is, or will be, required once the pending one is over.
  predicate WillUpgrade(w: World)
    requires w.spec.version in w.known
  {
    UpgradeRequired(w.status.operand.(phase := Running), w.spec.image, w.known[w.spec.version], w.known)
  }

  function Scale(w: World): nat {
    if w.status.replicas > w.spec.replicas then (if w.status.scalingDown then 7 else 8)
    else if w.status.scalingUp then 7 else 8
  }

  // How far the cluster is from rest, leaving aside an upgrade still to come.
  function Stage(w: World): nat {
    if w.status.stopping then (if w.Size() > 0 then 15 else 14)
    else if w.status.upgrade then (if w.status.wanted > 0 then 13 else 16)
    else if w.spec.replicas == 0 then
      if w.Size() > 0 then 16
      else (if w.cluster.stateful.None? then 1 else 0) + (if w.status.graceful then 0 else 1)
    else if w.status.graceful then (if w.cluster.stateful.None? then 12 else 11)
    else if w.status.replicas != w.spec.replicas then (if w.Size() != w.spec.replicas then 10 else Scale(w))
    else if w.status.scalingUp then (if w.Size() != w.spec.replicas then 6 else 5)
    else if w.Size() != w.spec.replicas then (if w.cluster.stateful.None? then 4 else 3)
    else if w.status.wellFormed == W.True && w.status.operand.phase == Running then 0
    else 2
  }

  function Distance(w: World): nat
    requires w.spec.version in w.known
  {
    if !w.status.stopping && Stage(w) == 0 && (w.spec.replicas != 0 || w.status.graceful) && !w.Required() then 0
    else Stage(w) + (if WillUpgrade(w) then 20 else 0)
  }

  // The StatefulSet controller and the pods have caught up with what was asked of them.
  ghost predicate Settled(w: World) {
    w.cluster.stateful.Some? ==>
      && w.cluster.stateful.value.current == w.Size() == w.cluster.stateful.value.ready
      && (w.Size() > 0 && !w.status.stopping && (w.spec.replicas > 0 || AllUp(w.cluster.servers)) ==>
            AllUp(w.cluster.servers) && |w.cluster.servers| == w.Size())
  }

  // No call fails, and the servers answer as a settled, healthy cluster does.
  ghost predicate Cooperative(w: World, e: Env) {
    && e.halts == {} && e.faults == map[]
    && (forall k :: 0 <= k < |w.cluster.servers| ==>
          e.ReplyOf(k).reached && (UpThrough(w.cluster.servers, 0, k) ==> ReportsWhole(w, e, k)))
    && e.anyReady && e.clusterSize == Some(w.spec.replicas) && !e.respin && e.ipsReady
    && (w.cluster.servers != [] && |w.cluster.servers| >= w.spec.replicas ==>
          W.ConditionOf(w.spec.replicas, e.ViewsOf(|w.cluster.servers|)) == W.True)
  }

  // Letting the platform catch up.
  function Settle(w: World): World {
    if w.cluster.stateful.None? then w
    else
      var n := w.Size();
      var pods :=
        if n == 0 then []
        else if w.status.stopping || (w.spec.replicas == 0 && !AllUp(w.cluster.servers)) then w.cluster.servers
        else seq(n, k => Up);
      w.(cluster := w.cluster.(servers := pods, stateful := Some(StatefulSet(n, n, n))))
  }

  lemma TwoSteps(w: World, first: Event, second: Event)
    ensures Steps(w, [first, second]) == Step(Step(w, first), second)
    ensures LegalRun(w, [first, second]) <==> Legal(w, first) && Legal(Step(w, first), second)
  {
    var evs := [first, second];
    assert evs[..1] == [first] && [first][..0] == [];
    assert Steps(w, [first]) == Step(w, first);
    assert LegalRun(w, [first]) <==> Legal(Steps(w, []), first);
    assert LegalRun(w, evs) <==> LegalRun(w, [first]) && Legal(Steps(w, [first]), second);
  }

  // Settling is something the platform may do, in two legal steps.
  lemma SettleIsLegal(w: World)
    requires Inv(w) && w.cluster.stateful.Some?
    ensures var n := w.Size();
            var pods := Settle(w).cluster.servers;
            var evs := if n == 0 then [Pods(pods), Reported(0, 0)] else [Reported(n, n), Pods(pods)];
            LegalRun(w, evs) && Steps(w, evs) == Settle(w)
    ensures Inv(Settle(w)) && Settled(Settle(w))
  {
    var n := w.Size();
    var pods := Settle(w).cluster.servers;
    var (first, second) := if n == 0 then (Pods(pods), Reported(0, 0)) else (Reported(n, n), Pods(pods));
    TwoSteps(w, first, second);
    StepKeeps(w, first);
    StepKeeps(Step(w, first), second);
  }

  // A cluster as it is asked for next: the platform has caught up, then the operator runs.
  function Round(w: World, e: Env): World {
    Reconcile(Settle(w), e)
  }

  // ---- following a run handler by handler ----

  function Index(upgrading: bool, h: Handler): nat {
    if !upgrading then Rank(h) else if Rank(h) <= 2 then Rank(h) else if Rank(h) <= 5 then 3 else Rank(h) - 3
  }

  function At(h: Handler, upgrading: bool, c: Run, e: Env): Run {
    RunFrom(Pipeline(upgrading), Index(upgrading, h), c, e)
  }

  function Next(upgrading: bool, h: Handler): Handler {
    match h
    case InitialiseOperandVersion => Configure
    case Configure => ScheduleGracefulShutdownUpgrade
    case ScheduleGracefulShutdownUpgrade => if upgrading then PodStatus else Provision
    case Provision => ClusterStatefulSet
    case ClusterStatefulSet => Expose
    case Expose => PodStatus
    case PodStatus => GracefulShutdownUpgrade
    case GracefulShutdownUpgrade => PodUpkeep
    case PodUpkeep => GracefulShutdown
    case GracefulShutdown => AwaitUpgrade
    case AwaitUpgrade => ClusterScaling
    case ClusterScaling => StatefulSetRollingUpgrade
    case StatefulSetRollingUpgrade => AwaitPodIps
    case AwaitPodIps => EnableRebalanceAfterScaleUp
    case EnableRebalanceAfterScaleUp => AwaitWellFormedCondition
    case _ => Tail
  }

  predicate Provisioning(h: Handler) {
    h.Provision? || h.ClusterStatefulSet? || h.Expose?
  }

  lemma Unroll(h: Handler, upgrading: bool, c: Run, e: Env)
    requires upgrading ==> !Provisioning(h)
    ensures var c' := Handle(h, c, e);
            if h.Tail? then At(h, upgrading, c, e) == c'
            else At(h, upgrading, c, e) == if c'.flow.stop then c' else At(Next(upgrading, h), upgrading, c', e)
  {
    var hs := Pipeline(upgrading);
    assert hs[Index(upgrading, h)] == h;
    if h.Tail? {
      assert Index(upgrading, h) + 1 == |hs|;
      var c' := Handle(h, c, e);
      assert RunFrom(hs, |hs|, c', e) == c';
    } else {
      assert Index(upgrading, Next(upgrading, h)) == Index(upgrading, h) + 1;
    }
  }

  // ---- the end of the pipeline ----

  // What a run leaves alone once it has got past the shutdown handlers.
  predicate SameRequest(w: World, w': World) {
    && w'.known == w.known && w'.spec == w.spec
    && w'.status.operand.(phase := Running) == w.status.operand.(phase := Running)
  }

  // A running cluster, seen from the last handlers.
  ghost predicate Serving(w: World) {
    && w.spec.replicas > 0 && w.spec.version in w.known
    && !w.status.graceful && !w.status.upgrade && !w.status.stopping && w.cluster.stateful.Some?
  }

  lemma FromAwaitWellFormed(c: Run, e: Env)
    requires Serving(c.w) && e.halts == {} && e.faults == map[] && !c.flow.stop
    ensures var w := c.w;
            var w' := At(AwaitWellFormedCondition, false, c, e).w;
            var up := W.ConditionOf(w.spec.replicas, e.ViewsOf(|w.cluster.servers|)) == W.True;
            && SameRequest(w, w')
            && w' == w.(status := w.status.(wellFormed := w'.status.wellFormed, operand := w'.status.operand))
            && (up ==> w'.status.wellFormed == W.True && w'.status.operand.phase == Running)
  {
    Unroll(AwaitWellFormedCondition, false, c, e);
    var c' := Handle(AwaitWellFormedCondition, c, e);
    Unroll(Tail, false, c', e);
  }

  // From AwaitPodIps on: the stage never gets worse, and a settled cluster of the right size comes to rest.
  lemma FromAwaitPodIps(c: Run, e: Env)
    requires Serving(c.w) && e.halts == {} && e.faults == map[] && !c.flow.stop && c.w.Size() == c.w.spec.replicas
    requires e.anyReady && e.clusterSize == Some(c.w.spec.replicas) && e.ipsReady
    ensures var w := c.w;
            var w' := At(AwaitPodIps, false, c, e).w;
            && SameRequest(w, w') && Serving(w') && w'.Size() == w'.spec.replicas
            && w'.status.replicas == w.status.replicas && w'.status.scalingDown == w.status.scalingDown
            && (w'.status.scalingUp ==> w.status.scalingUp)
            && (w.status.replicas != w.spec.replicas && w.cluster.stateful.value.current != w.spec.replicas ==>
                  w'.status.scalingUp == w.status.scalingUp)
            && (w.cluster.stateful.value.current == |w.cluster.servers| == w.spec.replicas ==>
                  && !w'.status.scalingUp
                  && (!w.status.scalingUp
                      && W.ConditionOf(w.spec.replicas, e.ViewsOf(|w.cluster.servers|)) == W.True ==>
                        w'.status.wellFormed == W.True && w'.status.operand.phase == Running))
  {
    Unroll(AwaitPodIps, false, c, e);
    var c1 := Handle(AwaitPodIps, c, e);
    if !c1.flow.stop {
      Unroll(EnableRebalanceAfterScaleUp, false, c1, e);
      var c2 := Handle(EnableRebalanceAfterScaleUp, c1, e);
      if !c2.flow.stop {
        FromAwaitWellFormed(c2, e);
      }
    }
  }

  lemma FromRollingUpgrade(c: Run, e: Env)
    requires Serving(c.w) && e.halts == {} && e.faults == map[] && !c.flow.stop && !e.respin
    requires e.anyReady && e.clusterSize == Some(c.w.spec.replicas) && e.ipsReady
    ensures var w := c.w;
            var w' := At(StatefulSetRollingUpgrade, false, c, e).w;
            && SameRequest(w, w') && Serving(w') && w'.Size() == w'.spec.replicas
            && w'.status.replicas == w.status.replicas && w'.status.scalingDown == w.status.scalingDown
            && (w'.status.scalingUp ==> w.status.scalingUp)
            && (w.status.replicas != w.spec.replicas && w.cluster.stateful.value.current != w.spec.replicas ==>
                  w'.status.scalingUp == w.status.scalingUp)
            && (w.cluster.stateful.value.current == |w.cluster.servers| == w.spec.replicas ==>
                  && !w'.status.scalingUp
                  && (!w.status.scalingUp
                      && W.ConditionOf(w.spec.replicas, e.ViewsOf(|w.cluster.servers|)) == W.True ==>
                        w'.status.wellFormed == W.True && w'.status.operand.phase == Running))
  {
    Unroll(StatefulSetRollingUpgrade, false, c, e);
    FromAwaitPodIps(Handle(StatefulSetRollingUpgrade, c, e), e);
  }

  lemma {:induction false} PvcsAreDeleted(pvcs: set<nat>, e: Env, hi: nat, lo: nat)
    requires e.faults == map[]
    ensures DeletePvcs(pvcs, e, hi, lo).1
    decreases hi
  {
    if hi > lo {
      PvcsAreDeleted(pvcs - {hi - 1}, e, hi - 1, lo);
    }
  }

  // A settled cluster: its pods are as many as the StatefulSet asks for.
  ghost predicate Full(w: World) {
    w.cluster.stateful.Some?
    && w.cluster.stateful.value.current == w.cluster.stateful.value.ready == |w.cluster.servers| == w.Size()
  }

  // A running, settled cluster always gets nearer to rest.
  lemma ServingProgress(c: Run, e: Env)
    requires Serving(c.w) && Full(c.w) && Cooperative(c.w, e) && !c.flow.stop
    ensures var w' := At(ClusterScaling, false, c, e).w;
            && SameRequest(c.w, w') && Serving(w')
            && (Stage(w') < Stage(c.w) || Stage(w') == Stage(c.w) == 0)
  {
    var w := c.w;
    Unroll(ClusterScaling, false, c, e);
    var c' := Handle(ClusterScaling, c, e);
    PvcsAreDeleted(w.cluster.pvcs, e, w.status.replicas, w.cluster.stateful.value.current);
    if w.status.replicas == w.spec.replicas || w.Size() != w.spec.replicas {
      assert c' == c;
      FromRollingUpgrade(c, e);
    } else if c'.flow.stop {
      assert Stage(w) == 8 && Stage(c'.w) == 7;
    } else {
      assert c'.w == w.(status := w.status.(replicas := w.spec.replicas, scalingDown := false, scalingUp := false),
                        cluster := w.cluster.(pvcs := c'.w.cluster.pvcs));
      FromRollingUpgrade(c', e);
    }
  }

  // ---- the front of the pipeline ----

  ghost predicate Nearer(w: World, w': World) {
    && w.spec.version in w.known && !Blocked(w')
    && (Distance(w') < Distance(w) || Distance(w') == Distance(w) == 0)
  }

  // The run up to the handler that follows ScheduleGracefulShutdownUpgrade.
  lemma Front(w: World, e: Env)
    requires w.spec.version in w.known && e.halts == {} && (w.status.upgrade || !w.Required())
    ensures Process(w, e) == At(if w.status.upgrade then PodStatus else Provision, w.status.upgrade, Run(w, START), e)
  {
    var c, u := Run(w, START), w.status.upgrade;
    Unroll(InitialiseOperandVersion, u, c, e);
    Unroll(Configure, u, c, e);
    Unroll(ScheduleGracefulShutdownUpgrade, u, c, e);
  }

  // From a StatefulSet that exists to GracefulShutdown.
  lemma ToGracefulShutdown(upgrading: bool, c: Run, e: Env)
    requires e.halts == {} && !c.flow.stop && c.w.cluster.stateful.Some?
    requires !(c.w.status.upgrade && !c.w.status.stopping && c.w.status.wanted > 0)
    ensures At(PodStatus, upgrading, c, e) == At(GracefulShutdown, upgrading, c, e)
  {
    Unroll(PodStatus, upgrading, c, e);
    Unroll(GracefulShutdownUpgrade, upgrading, c, e);
    Unroll(PodUpkeep, upgrading, c, e);
  }

  lemma ScheduleProgress(w: World, e: Env)
    requires Inv(w) && !Blocked(w) && e.halts == {} && e.faults == map[]
    requires !w.status.upgrade && w.Required()
    ensures Nearer(w, Reconcile(w, e))
  {
    var c := Run(w, START);
    Unroll(InitialiseOperandVersion, false, c, e);
    Unroll(Configure, false, c, e);
    Unroll(ScheduleGracefulShutdownUpgrade, false, c, e);
    RecordedOperandIsSettled(w.spec.image, Running, w.known[w.spec.version], w.known);
    assert w.status.operand.(phase := Running) == w.status.operand;
  }

  lemma ReachCreated(w: World, e: Env)
    requires w.spec.version in w.known && e.halts == {} && e.faults == map[] && w.cluster.stateful.None?
    requires !w.status.upgrade && !w.Required()
    ensures Process(w, e) == At(GracefulShutdown, false, HandleClusterStatefulSet(Run(w, START), e), e)
  {
    var c := Run(w, START);
    Front(w, e);
    Unroll(Provision, false, c, e);
    Unroll(ClusterStatefulSet, false, c, e);
    var created := Handle(ClusterStatefulSet, c, e);
    Unroll(Expose, false, created, e);
    ToGracefulShutdown(false, created, e);
  }

  // A missing StatefulSet is created.
  lemma CreationProgress(w: World, e: Env)
    requires Inv(w) && !Blocked(w) && Cooperative(w, e) && w.cluster.stateful.None? && !w.Required()
    ensures Nearer(w, Reconcile(w, e))
  {
    ReachCreated(w, e);
    var created := HandleClusterStatefulSet(Run(w, START), e);
    Unroll(GracefulShutdown, false, created, e);
    if !Handle(GracefulShutdown, created, e).flow.stop {
      PassScaling(created, e);
      FromRollingUpgrade(created, e);
    }
  }

  lemma PassScaling(c: Run, e: Env)
    requires e.halts == {} && !c.flow.stop && !c.w.status.upgrade && c.w.status.replicas == c.w.spec.replicas
    ensures At(AwaitUpgrade, false, c, e) == At(StatefulSetRollingUpgrade, false, c, e)
  {
    Unroll(AwaitUpgrade, false, c, e);
    Unroll(ClusterScaling, false, c, e);
  }

  // The servers of a cluster asked for no replica are stopped, then the StatefulSet is scaled down, then the shutdown
  // is recorded.
  lemma ShutdownProgress(w: World, e: Env)
    requires Inv(w) && !Blocked(w) && Settled(w) && Cooperative(w, e) && w.cluster.stateful.Some?
             && w.spec.replicas == 0
    requires w.status.upgrade || !w.Required()
    requires !(w.status.upgrade && !w.status.stopping && w.status.wanted > 0)
    ensures Nearer(w, HandleGracefulShutdown(Run(w, START), e).w) && HandleGracefulShutdown(Run(w, START), e).flow.stop
  {
    var w' := HandleGracefulShutdown(Run(w, START), e).w;
    if w.Size() != 0 && !w.status.stopping {
      GoMeansWhole(w, e, 0, false);
      assert CheckPods(w, e, 0, false) == Go;
      SweepCompletes(w.cluster.servers, w.cluster.rebalance, e, 0, false);
      assert Stage(w) == 16 && Stage(w') == 15;
    } else if w.Size() != 0 {
      assert Stage(w) == 15 && Stage(w') == 14;
    } else if w.status.stopping {
      assert Stage(w) == 14 && Stage(w') <= 13;
    } else {
      assert Stage(w') == 0;
    }
  }

  lemma DestroyProgress(w: World, e: Env)
    requires Inv(w) && !Blocked(w) && e.halts == {} && e.faults == map[] && w.cluster.stateful.Some?
    requires w.status.upgrade && !w.status.stopping && w.status.wanted > 0
    ensures Nearer(w, Reconcile(w, e))
  {
    var c := Run(w, START);
    Front(w, e);
    Unroll(PodStatus, true, c, e);
    Unroll(GracefulShutdownUpgrade, true, c, e);
  }

  lemma ReachGracefulShutdown(w: World, e: Env)
    requires w.spec.version in w.known && e.halts == {} && w.cluster.stateful.Some?
    requires w.status.upgrade || !w.Required()
    requires !(w.status.upgrade && !w.status.stopping && w.status.wanted > 0)
    ensures Process(w, e) == At(GracefulShutdown, w.status.upgrade, Run(w, START), e)
  {
    var c, u := Run(w, START), w.status.upgrade;
    Front(w, e);
    if !u {
      Unroll(Provision, u, c, e);
      Unroll(ClusterStatefulSet, u, c, e);
      Unroll(Expose, u, c, e);
    }
    ToGracefulShutdown(u, c, e);
  }

  lemma ExistingProgress(w: World, e: Env)
    requires Inv(w) && !Blocked(w) && Settled(w) && Cooperative(w, e) && w.cluster.stateful.Some?
    requires w.status.upgrade || !w.Required()
    requires !(w.status.upgrade && !w.status.stopping && w.status.wanted > 0)
    ensures Nearer(w, Reconcile(w, e))
  {
    var c, u := Run(w, START), w.status.upgrade;
    ReachGracefulShutdown(w, e);
    Unroll(GracefulShutdown, u, c, e);
    if w.spec.replicas == 0 {
      ShutdownProgress(w, e);
    } else if !w.status.graceful {
      Unroll(AwaitUpgrade, false, c, e);
      ServingProgress(c, e);
    }
  }

  // With the platform caught up and no call failing, one reconciliation of a cluster that is not blocked brings it
  // strictly nearer to rest, or finds it there; and it does not become blocked.
  lemma ReconcileProgress(w: World, e: Env)
    requires Inv(w) && !Blocked(w) && Settled(w) && Cooperative(w, e)
    ensures Nearer(w, Reconcile(w, e))
  {
    if !w.status.upgrade && w.Required() {
      ScheduleProgress(w, e);
    } else if w.cluster.stateful.None? {
      CreationProgress(w, e);
    } else if w.status.upgrade && !w.status.stopping && w.status.wanted > 0 {
      DestroyProgress(w, e);
    } else {
      ExistingProgress(w, e);
    }
  }

  lemma SettlingKeepsDistance(w: World)
    ensures Blocked(Settle(w)) == Blocked(w)
    ensures w.spec.version in w.known ==> Distance(Settle(w)) == Distance(w)
  {
  }

  // Cooperation is always possible.
  function GoodEnv(w: World): Env {
    var n := |w.cluster.servers|;
    Env({}, map[], seq(n, _ => Reply(true, Some(w.Size()), Some(true), true)), true, Some(w.spec.replicas), false, true,
        seq(n, _ => W.PodView(true, Some(multiset{}))))
  }

  lemma CooperationExists(w: World)
    ensures Cooperative(w, GoodEnv(w))
  {
    var e, n := GoodEnv(w), |w.cluster.servers|;
    if n > 0 && n >= w.spec.replicas {
      W.TrueMeansOneView(w.spec.replicas, e.ViewsOf(n));
    }
  }

  lemma ZeroIsRest(w: World)
    requires Inv(w) && !Blocked(w)
    ensures Distance(w) == 0 ==> AtRest(w)
  {
  }

  // Rounds with the platform cooperating, one after the other.
  ghost predicate CooperativeRun(w: World, es: seq<Env>)
    decreases |es|
  {
    es == [] || (Cooperative(Settle(w), es[0]) && CooperativeRun(Round(w, es[0]), es[1..]))
  }

  function Rounds(w: World, es: seq<Env>): World
    decreases |es|
  {
    if es == [] then w else Rounds(Round(w, es[0]), es[1..])
  }

  // Every cluster that is not blocked comes to rest within `Distance` cooperative rounds, and stays there.
  lemma {:induction false} ComesToRest(w: World, es: seq<Env>)
    requires Inv(w) && !Blocked(w) && CooperativeRun(w, es) && |es| >= Distance(w)
    ensures !Blocked(Rounds(w, es)) && AtRest(Rounds(w, es))
    decreases |es|
  {
    if es == [] {
      ZeroIsRest(w);
    } else {
      var s, next := Settle(w), Round(w, es[0]);
      SettlingKeepsDistance(w);
      if w.cluster.stateful.Some? { SettleIsLegal(w); }
      ReconcileProgress(s, es[0]);
      ReconcileKeeps(s, es[0]);
      ComesToRest(next, es[1..]);
    }
  }

  // ---- blocked clusters ----

  // No reconciliation leaves a blocked state, whatever calls fail or succeed in it.
  lemma BlockedStaysBlocked(w: World, e: Env)
    requires Inv(w) && Blocked(w)
    ensures Blocked(Reconcile(w, e))
  {
    var c, u := Run(w, START), w.status.upgrade;
    Unroll(InitialiseOperandVersion, u, c, e);
    if w.spec.version in w.known && InitialiseOperandVersion !in e.halts {
      Unroll(Configure, u, c, e);
      Unroll(ScheduleGracefulShutdownUpgrade, u, c, e);
      if u {
        BlockedUpgrade(c, e);
      } else {
        BlockedResume(c, e);
      }
    }
  }

  // The handlers between PodStatus and GracefulShutdown let a run pass unchanged or stop it unchanged, unless an
  // upgrade is ready to destroy the StatefulSet.
  lemma PassToGracefulShutdown(upgrading: bool, c: Run, e: Env)
    requires !c.flow.stop && !(c.w.status.upgrade && !c.w.status.stopping && c.w.status.wanted > 0)
    ensures var c' := At(PodStatus, upgrading, c, e);
            c'.w == c.w || (c.w.cluster.stateful.Some? && c' == At(GracefulShutdown, upgrading, c, e))
  {
    Unroll(PodStatus, upgrading, c, e);
    if !Handle(PodStatus, c, e).flow.stop {
      PassDestruction(upgrading, c, e);
    }
  }

  lemma PassDestruction(upgrading: bool, c: Run, e: Env)
    requires !c.flow.stop && !(c.w.status.upgrade && !c.w.status.stopping && c.w.status.wanted > 0)
    ensures var c' := At(GracefulShutdownUpgrade, upgrading, c, e);
            c'.w == c.w || c' == At(GracefulShutdown, upgrading, c, e)
  {
    Unroll(GracefulShutdownUpgrade, upgrading, c, e);
    if !Handle(GracefulShutdownUpgrade, c, e).flow.stop {
      Unroll(PodUpkeep, upgrading, c, e);
    }
  }

  lemma PassProvisioning(c: Run, e: Env)
    requires !c.flow.stop && c.w.cluster.stateful.Some?
    ensures At(Provision, false, c, e).w == c.w || At(Provision, false, c, e) == At(PodStatus, false, c, e)
  {
    Unroll(Provision, false, c, e);
    if !Handle(Provision, c, e).flow.stop {
      Unroll(ClusterStatefulSet, false, c, e);
      if !Handle(ClusterStatefulSet, c, e).flow.stop {
        Unroll(Expose, false, c, e);
      }
    }
  }

  lemma BlockedUpgrade(c: Run, e: Env)
    requires Inv(c.w) && Blocked(c.w) && c.w.status.upgrade && c.w.spec.version in c.w.known && !c.flow.stop
    ensures Blocked(At(PodStatus, true, c, e).w)
  {
    if c.w.cluster.stateful.None? {
      Unroll(PodStatus, true, c, e);
    } else {
      PassToGracefulShutdown(true, c, e);
      Unroll(GracefulShutdown, true, c, e);
      var c' := Handle(GracefulShutdown, c, e);
      assert Blocked(c'.w) && c'.w.status.upgrade;
      if !c'.flow.stop {
        Unroll(AwaitUpgrade, true, c', e);
      }
    }
  }

  lemma BlockedResume(c: Run, e: Env)
    requires Inv(c.w) && Blocked(c.w) && !c.w.status.upgrade && c.w.spec.version in c.w.known && !c.flow.stop
    ensures Blocked(At(Provision, false, c, e).w)
  {
    PassProvisioning(c, e);
    PassToGracefulShutdown(false, c, e);
    Unroll(GracefulShutdown, false, c, e);
    assert Handle(GracefulShutdown, c, e) == Halt(c, true);
  }

  lemma {:induction false} BlockedForGood(w: World, es: seq<Env>)
    requires Inv(w) && Blocked(w)
    ensures Blocked(Rounds(w, es))
    decreases |es|
  {
    if es != [] {
      var s := Settle(w);
      SettlingKeepsDistance(w);
      if w.cluster.stateful.Some? { SettleIsLegal(w); }
      BlockedStaysBlocked(s, es[0]);
      ReconcileKeeps(s, es[0]);
      BlockedForGood(Round(w, es[0]), es[1..]);
    }
  }

  // Whatever has happened since the cluster was created: within 36 cooperative rounds it is at rest, exactly when it
  // was not blocked.
  lemma RestIffNotBlocked(w: World, evs: seq<Event>, es: seq<Env>)
    requires Initial(w) && LegalRun(w, evs) && CooperativeRun(Steps(w, evs), es) && |es| >= 36
    ensures var now, later := Steps(w, evs), Rounds(Steps(w, evs), es);
            !Blocked(now) <==> later.spec.version in later.known && AtRest(later)
  {
    var now := Steps(w, evs);
    RunsKeep(w, evs);
    if Blocked(now) {
      BlockedForGood(now, es);
    } else {
      ComesToRest(now, es);
    }
  }

  // Cooperative rounds, as many as asked for.
  function Helped(w: World, n: nat): seq<Env>
    decreases n
  {
    if n == 0 then [] else var e := GoodEnv(Settle(w)); [e] + Helped(Round(w, e), n - 1)
  }

  lemma {:induction false} HelpedCooperates(w: World, n: nat)
    ensures CooperativeRun(w, Helped(w, n)) && |Helped(w, n)| == n
    decreases n
  {
    if n > 0 {
      var e := GoodEnv(Settle(w));
      CooperationExists(Settle(w));
      HelpedCooperates(Round(w, e), n - 1);
    }
  }

  // Whatever has happened since the cluster was created: cooperation can bring it to rest exactly when it is not
  // blocked.
  lemma RestIsReachable(w: World, evs: seq<Event>)
    requires Initial(w) && LegalRun(w, evs)
    ensures var now := Steps(w, evs);
            !Blocked(now)
            <==> exists es :: CooperativeRun(now, es) && var later := Rounds(now, es);
                              later.spec.version in later.known && AtRest(later)
  {
    var now := Steps(w, evs);
    RunsKeep(w, evs);
    if Blocked(now) {
      forall es ensures Blocked(Rounds(now, es)) {
        BlockedForGood(now, es);
      }
    } else {
      var es := Helped(now, 36);
      HelpedCooperates(now, 36);
      RestIffNotBlocked(w, evs, es);
    }
  }
}
