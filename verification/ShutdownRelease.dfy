/**
 Which release and image a Shutdown-upgrade cluster ends on: the requested ones, and nothing else is ever recorded.
 */
module ShutdownRelease {
  import opened ApiCalls
  import opened FlowControl
  import opened Operands
  import opened ShutdownModel
  import opened ShutdownSafety
  import opened ShutdownLiveness
  import opened ShutdownLimits
  import W = WellFormed

  // ---- what is recorded ----

  // The operand recorded is the one asked for.
  predicate RecordsRequest(w: World, operand: OperandStatus)
    requires w.spec.version in w.known
  {
    && operand.version == Some(w.spec.version) && operand.customImage == w.spec.image.Some?
    && operand.image == match w.spec.image case Some(image) => image case None => w.known[w.spec.version].image
  }

  predicate SameOperand(a: OperandStatus, b: OperandStatus) {
    a.version == b.version && a.image == b.image && a.customImage == b.customImage
  }

  // A reconciliation leaves the request alone, and the operand recorded as it is or makes it the one asked for,
  // pending; the phase becomes Running only with a cluster found well formed.
  ghost predicate OperandMoves(w: World, w': World) {
    && w'.known == w.known && w'.spec.version == w.spec.version && w'.spec.image == w.spec.image
    && (|| SameOperand(w.status.operand, w'.status.operand)
        || (w.spec.version in w.known && RecordsRequest(w, w'.status.operand)))
    && (w.status.operand.phase == Pending && w'.status.operand.phase == Running ==> w'.status.wellFormed == W.True)
  }

  lemma ScalingLeavesOperand(c: Run, e: Env)
    ensures var w, w' := c.w, HandleClusterScaling(c, e).w;
            w'.known == w.known && w'.spec == w.spec && w'.status.operand == w.status.operand
  {
    ScalingTouches(c, e);
  }

  lemma RespinRecords(c: Run, e: Env)
    requires c.w.spec.version in c.w.known && ValidManager(c.w.known)
    ensures OperandMoves(c.w, HandleStatefulSetRollingUpgrade(c, e).w)
  {
    assert c.w.known[c.w.spec.version].Ref() == c.w.spec.version;
    if c.w.cluster.stateful.Some? {
      assert OperandMoves(c.w, Respin(c, e).w);
    }
  }

  lemma ScheduleRecords(c: Run, e: Env)
    requires c.w.spec.version in c.w.known && ValidManager(c.w.known)
    ensures OperandMoves(c.w, HandleSchedule(c, e).w)
  {
    assert c.w.known[c.w.spec.version].Ref() == c.w.spec.version;
  }

  lemma ShutdownRecords(c: Run, e: Env)
    ensures var w, w' := c.w, HandleGracefulShutdown(c, e).w;
            && w'.known == w.known && w'.spec == w.spec && w'.status.operand == w.status.operand
            && (w'.status.wellFormed == w.status.wellFormed || w'.status.wellFormed == W.False)
  {
  }

  lemma HandlerRecords(h: Handler, c: Run, e: Env)
    requires ValidManager(c.w.known)
    ensures OperandMoves(c.w, Handle(h, c, e).w)
    ensures !h.AwaitWellFormedCondition? && Handle(h, c, e).w.status.operand.phase == Running ==>
              c.w.status.operand.phase == Running
  {
    match h
    case ScheduleGracefulShutdownUpgrade => if c.w.spec.version in c.w.known { ScheduleRecords(c, e); }
    case GracefulShutdown => ShutdownRecords(c, e);
    case ClusterScaling => ScalingLeavesOperand(c, e);
    case StatefulSetRollingUpgrade => if c.w.spec.version in c.w.known { RespinRecords(c, e); }
    case _ =>
  }

  lemma {:induction false} RunRecords(upgrading: bool, k: nat, c: Run, e: Env)
    requires k <= |Pipeline(upgrading)| && ValidManager(c.w.known)
    ensures OperandMoves(c.w, RunFrom(Pipeline(upgrading), k, c, e).w)
    decreases |Pipeline(upgrading)| - k
  {
    var hs := Pipeline(upgrading);
    if k < |hs| {
      var mid := Handle(hs[k], c, e);
      HandlerRecords(hs[k], c, e);
      if !mid.flow.stop {
        RunRecords(upgrading, k + 1, mid, e);
        if hs[k].AwaitWellFormedCondition? {
          assert hs[k + 1] == Tail && k + 2 == |hs|;
          assert RunFrom(hs, k + 2, Handle(Tail, mid, e), e).w == mid.w;
        }
      }
    }
  }

  // Whatever fails in a reconciliation.
  lemma ReconcileRecords(w: World, e: Env)
    requires Inv(w)
    ensures OperandMoves(w, Reconcile(w, e))
  {
    RunRecords(w.status.upgrade, 0, Run(w, START), e);
  }

  // ---- when the cluster is called well formed ----

  // There are as many pods as replicas asked for, at least one; every one of them is ready and answers, and all list
  // the same members.
  ghost predicate Whole(w: World, e: Env) {
    var n := |w.cluster.servers|;
    && w.spec.replicas <= n <= |e.views| && n > 0
    && (forall k :: 0 <= k < n ==> e.views[k].ready && e.views[k].members.Some?)
    && (forall j, k :: 0 <= j < k < n ==> e.views[j].members == e.views[k].members)
  }

  lemma ConditionFindsWhole(w: World, e: Env)
    ensures W.ConditionOf(w.spec.replicas, e.ViewsOf(|w.cluster.servers|)) == W.True ==> Whole(w, e)
  {
    var views := e.ViewsOf(|w.cluster.servers|);
    W.TrueMeansOneView(w.spec.replicas, views);
    assert forall k :: 0 <= k < |views| ==>
        views[k] == if k < |e.views| then e.views[k] else W.PodView(false, None);
    if views != [] {
      assert W.ConditionOf(w.spec.replicas, views) == W.True ==> !W.Unanswered(views[|views| - 1]);
    }
  }

  lemma HandlerFindsWhole(h: Handler, c: Run, e: Env)
    ensures var w, c' := c.w, Handle(h, c, e);
            && (c'.w.status.wellFormed == W.True && w.status.wellFormed != W.True ==>
                  h.AwaitWellFormedCondition? && Whole(c'.w, e))
            && (h.AwaitWellFormedCondition? && !c'.flow.stop ==> Whole(c'.w, e))
  {
    if h.AwaitWellFormedCondition? {
      ConditionFindsWhole(c.w, e);
      assert h !in e.halts ==> Handle(h, c, e) == HandleAwaitWellFormed(c, e);
    } else if h.GracefulShutdown? {
      ShutdownRecords(c, e);
    } else if h.ClusterScaling? {
      ScalingTouches(c, e);
    } else if h.StatefulSetRollingUpgrade? && c.w.spec.version in c.w.known {
      RollingLeavesCondition(c, e);
    }
  }

  lemma RollingLeavesCondition(c: Run, e: Env)
    requires c.w.spec.version in c.w.known
    ensures HandleStatefulSetRollingUpgrade(c, e).w.status.wellFormed == c.w.status.wellFormed
  {
    var w1 := Respin(c, e).w;
    assert w1 == c.w.(status := c.w.status.(operand := w1.status.operand));
  }

  lemma {:induction false} RunFindsWhole(upgrading: bool, k: nat, c: Run, e: Env)
    requires k <= |Pipeline(upgrading)| - 2 && !c.flow.stop
    ensures var c' := RunFrom(Pipeline(upgrading), k, c, e);
            (c'.w.status.wellFormed == W.True && c.w.status.wellFormed != W.True) || !c'.flow.stop ==> Whole(c'.w, e)
    decreases |Pipeline(upgrading)| - k
  {
    var hs := Pipeline(upgrading);
    var mid := Handle(hs[k], c, e);
    HandlerFindsWhole(hs[k], c, e);
    if !mid.flow.stop {
      if k == |hs| - 2 {
        assert hs[k] == AwaitWellFormedCondition && hs[k + 1] == Tail;
        assert RunFrom(hs, k + 1, mid, e).w == mid.w;
      } else {
        assert !hs[k].AwaitWellFormedCondition?;
        RunFindsWhole(upgrading, k + 1, mid, e);
      }
    }
  }

  // A reconciliation that makes the cluster well formed, or that ends without asking to be run again, has found it
  // whole.
  lemma WellFormedMeansWhole(w: World, e: Env)
    ensures var c := Process(w, e);
            (c.w.status.wellFormed == W.True && w.status.wellFormed != W.True) || !c.flow.stop ==> Whole(c.w, e)
  {
    RunFindsWhole(w.status.upgrade, 0, Run(w, START), e);
  }

  // ---- when an upgrade is scheduled ----

  // A reconciliation schedules an upgrade exactly when the run gets that far, the operand running is not what is asked
  // for, and both patches of the update are sent; it then asks for no replica and records the operand asked for.
  lemma UpgradeIsScheduledWhen(w: World, e: Env)
    requires Inv(w) && !w.status.upgrade
    ensures var next := Reconcile(w, e);
            && (next.status.upgrade <==>
                  && e.halts !! {InitialiseOperandVersion, Configure, ScheduleGracefulShutdownUpgrade}
                  && w.spec.version in w.known && w.status.operand.phase == Running
                  && !Installed(w.status.operand, w.spec.image, w.known[w.spec.version], w.known)
                  && (w.spec.replicas == 0 || e.Of(ScheduleSpec) == Ok) && e.Of(ScheduleUpdate) != Failed)
            && (next.status.upgrade ==>
                  && next.spec == w.spec.(replicas := 0) && next.status.operand.phase == Pending
                  && RecordsRequest(w, next.status.operand) && next.cluster == w.cluster)
            && (w.spec.version in w.known && w.Required() && !next.status.upgrade
                && e.halts !! {InitialiseOperandVersion, Configure, ScheduleGracefulShutdownUpgrade} ==>
                  next == if e.Of(ScheduleSpec) == Failed then w else w.(spec := w.spec.(replicas := 0)))
  {
    FirstHandlers(w, e);
    if GoesOn(w, e) {
      NoLateSchedule(false, 3, Run(w, START), e);
    }
    if w.spec.version in w.known {
      UpgradeRequiredWhen(w.status.operand, w.spec.image, w.known[w.spec.version], w.known);
      assert w.known[w.spec.version].Ref() == w.spec.version;
      if w.Required() {
        SchedulingRun(w, e);
      }
    }
  }

  lemma SchedulingRun(w: World, e: Env)
    requires !w.status.upgrade && w.spec.version in w.known && w.Required()
    ensures Reconcile(w, e) == if e.halts !! {InitialiseOperandVersion, Configure, ScheduleGracefulShutdownUpgrade}
                               then HandleSchedule(Run(w, START), e).w else w
  {
    var c := Run(w, START);
    Unroll(InitialiseOperandVersion, false, c, e);
    if InitialiseOperandVersion !in e.halts {
      Unroll(Configure, false, c, e);
      if Configure !in e.halts {
        Unroll(ScheduleGracefulShutdownUpgrade, false, c, e);
      }
    }
  }

  // ---- what a cluster at rest runs ----

  // The release recorded is the requested one, or shares its server and differs in the base image alone; the image is
  // the requested one, or the operator's own when none is requested.
  predicate RunsRequest(w: World)
    requires w.spec.version in w.known
  {
    var operand, requested := w.status.operand, w.known[w.spec.version];
    && operand.version.Some? && operand.version.value in w.known
    && (operand.version == Some(w.spec.version)
        || (w.spec.image.None? && requested.cve && requested.upstream == w.known[operand.version.value].upstream))
    && (match w.spec.image case Some(image) => operand.image == image case None => !operand.customImage)
  }

  // A cluster at rest with its operand running runs what is asked for; with replicas it always has its operand running.
  lemma RestMeansInstalled(w: World)
    requires Inv(w) && OneKind(w.known) && w.spec.version in w.known && AtRest(w)
    ensures w.spec.replicas > 0 ==> w.status.operand.phase == Running
    ensures w.status.operand.phase == Running ==> RunsRequest(w)
  {
    UpgradeRequiredWhen(w.status.operand, w.spec.image, w.known[w.spec.version], w.known);
    EqualMeansSameReference(w.known, w.spec.version, w.status.operand.version.value);
  }

  // That its operand is running is needed: a cluster created without replicas rests with a pending one, whatever image
  // is asked for.
  lemma RestsPending(w: World, e: Env)
    requires Initial(w) && w.spec.replicas == 0 && w.spec.version in w.known && e.halts == {} && e.faults == map[]
    ensures var next := Reconcile(w, e);
            && next.spec.version in next.known && AtRest(next)
            && next.status.operand == w.status.operand && next.status.operand.phase == Pending
  {
    ReachCreated(w, e);
    Unroll(GracefulShutdown, false, HandleClusterStatefulSet(Run(w, START), e), e);
  }

  // An edit of the request leaves a cluster at rest exactly when it asks for what is running, or nothing is.
  lemma EditLeavesRestWhen(w: World, version: Version, image: Option<string>)
    requires Inv(w) && OneKind(w.known) && w.spec.version in w.known && AtRest(w) && version in w.known
    ensures var edited := w.(spec := w.spec.(version := version, image := image));
            AtRest(edited) <==> w.status.operand.phase == Pending || RunsRequest(edited)
  {
    var edited := w.(spec := w.spec.(version := version, image := image));
    UpgradeRequiredWhen(w.status.operand, image, w.known[version], w.known);
    EqualMeansSameReference(w.known, version, w.status.operand.version.value);
  }

  // ---- the size of an upgraded cluster ----

  // The number of replicas the cluster will come back with.
  function Target(w: World): nat {
    if w.spec.replicas > 0 then w.spec.replicas else if w.status.wanted > 0 then w.status.wanted else w.Size()
  }

  // The upgrade is required and not scheduled yet; `n` is the size of the StatefulSet.
  predicate Due(w: World, n: nat) {
    && w.spec.version in w.known && w.Required() && !w.status.upgrade && !w.status.stopping && w.Size() == n > 0
  }

  // It is scheduled, or over.
  predicate Scheduled(w: World, n: nat) {
    && w.spec.version in w.known && RecordsRequest(w, w.status.operand)
    && Target(w) == n > 0 && (w.spec.replicas > 0 || (w.status.upgrade && (w.Size() > 0 ==> w.Size() == n)))
    && (w.status.upgrade && w.status.wanted > 0 ==> w.status.wanted == n)
  }

  lemma SettledOperand(w: World)
    requires w.spec.version in w.known && ValidManager(w.known) && RecordsRequest(w, w.status.operand)
    ensures !w.Required()
  {
    var requested := w.known[w.spec.version];
    RecordedOperandIsSettled(w.spec.image, w.status.operand.phase, requested, w.known);
    assert w.status.operand == StatusOf(w.spec.image, w.status.operand.phase, requested);
  }

  lemma HandlerKeepsTarget(upgrading: bool, h: Handler, c: Run, e: Env, n: nat)
    requires Inv(c.w) && Reached(upgrading, Rank(h), c.w) && !c.flow.stop && Scheduled(c.w, n)
    requires h.ClusterStatefulSet? ==> !upgrading
    ensures Scheduled(Handle(h, c, e).w, n)
  {
    HandlerRecords(h, c, e);
    SettledOperand(c.w);
    match h
    case GracefulShutdown => ShutdownKeepsTarget(upgrading, c, e, n);
    case ClusterScaling => ScalingTouches(c, e);
    case StatefulSetRollingUpgrade => RollingKeepsTarget(upgrading, c, e, n);
    case _ =>
  }

  lemma RollingKeepsTarget(upgrading: bool, c: Run, e: Env, n: nat)
    requires Inv(c.w) && Reached(upgrading, 12, c.w) && Scheduled(c.w, n)
    ensures Scheduled(HandleStatefulSetRollingUpgrade(c, e).w, n)
  {
    RespinRecords(c, e);
    var w1 := Respin(c, e).w;
    assert w1 == c.w.(status := c.w.status.(operand := w1.status.operand));
  }

  lemma ShutdownKeepsTarget(upgrading: bool, c: Run, e: Env, n: nat)
    requires Inv(c.w) && Reached(upgrading, 9, c.w) && Scheduled(c.w, n)
    ensures Scheduled(HandleGracefulShutdown(c, e).w, n)
  {
    var w := c.w;
    if w.spec.replicas == 0 && w.Size() != 0 && !w.status.stopping {
      StopServersEffect(c, e);
    }
  }

  lemma {:induction false} RunKeepsTarget(upgrading: bool, k: nat, c: Run, e: Env, n: nat)
    requires k < |Pipeline(upgrading)| && !c.flow.stop
    requires Inv(c.w) && Reached(upgrading, Rank(Pipeline(upgrading)[k]), c.w) && Scheduled(c.w, n)
    ensures Scheduled(RunFrom(Pipeline(upgrading), k, c, e).w, n)
    decreases |Pipeline(upgrading)| - k
  {
    var hs := Pipeline(upgrading);
    PipelineOrder(upgrading);
    var c' := Handle(hs[k], c, e);
    HandleKeeps(upgrading, hs[k], c, e);
    HandlerKeepsTarget(upgrading, hs[k], c, e, n);
    if !c'.flow.stop && k + 1 < |hs| {
      ReachesNext(upgrading, k, c'.w);
      RunKeepsTarget(upgrading, k + 1, c', e, n);
    }
  }

  lemma SchedulingKeepsTarget(w: World, e: Env, n: nat)
    requires Inv(w) && Due(w, n)
    ensures Due(Reconcile(w, e), n) || Scheduled(Reconcile(w, e), n)
  {
    SchedulingRun(w, e);
    assert w.known[w.spec.version].Ref() == w.spec.version;
  }

  lemma {:induction false} UpgradeKeepsTarget(w: World, evs: seq<Event>, n: nat)
    requires Inv(w) && Due(w, n) && LegalRun(w, evs) && forall k :: 0 <= k < |evs| ==> !evs[k].User?
    ensures Inv(Steps(w, evs)) && (Due(Steps(w, evs), n) || Scheduled(Steps(w, evs), n))
  {
    if evs != [] {
      var before, last := Steps(w, evs[..|evs| - 1]), evs[|evs| - 1];
      UpgradeKeepsTarget(w, evs[..|evs| - 1], n);
      StepKeeps(before, last);
      if last.Reconciled? {
        if Due(before, n) {
          SchedulingKeepsTarget(before, last.e, n);
        } else {
          PipelineOrder(before.status.upgrade);
          RunKeepsTarget(before.status.upgrade, 0, Run(before, START), last.e, n);
        }
      }
    }
  }

  // Whatever calls fail during an upgrade, a cluster that comes to rest again has what was asked for recorded as
  // running, at the size its StatefulSet had when the upgrade was due. So the number of replicas asked for survives
  // exactly when the StatefulSet had been given it before: asked for together with an upgrade, a new number is lost.
  lemma UpgradeInstallsRequest(w: World, history: seq<Event>, evs: seq<Event>)
    requires Initial(w) && LegalRun(w, history)
    requires var due := Steps(w, history);
             && Due(due, due.Size()) && due.spec.replicas > 0
             && LegalRun(due, evs) && forall k :: 0 <= k < |evs| ==> !evs[k].User?
    ensures var due := Steps(w, history);
            var later := Steps(due, evs);
            later.spec.version in later.known && AtRest(later) ==>
              && later.spec.version == due.spec.version && later.spec.image == due.spec.image
              && later.status.operand.phase == Running && RecordsRequest(later, later.status.operand)
              && later.Size() == later.spec.replicas == due.Size()
              && (later.spec.replicas == due.spec.replicas <==> due.spec.replicas == due.Size())
  {
    var due := Steps(w, history);
    RunsKeep(w, history);
    UpgradeKeepsTarget(due, evs, due.Size());
    RequestStays(due, evs);
  }

  lemma {:induction false} RequestStays(w: World, evs: seq<Event>)
    requires Inv(w) && LegalRun(w, evs) && forall k :: 0 <= k < |evs| ==> !evs[k].User?
    ensures var later := Steps(w, evs);
            && Inv(later) && later.known == w.known
            && later.spec.version == w.spec.version && later.spec.image == w.spec.image
  {
    if evs != [] {
      var before, last := Steps(w, evs[..|evs| - 1]), evs[|evs| - 1];
      RequestStays(w, evs[..|evs| - 1]);
      StepKeeps(before, last);
      if last.Reconciled? {
        ReconcileRecords(before, last.e);
      }
    }
  }
}
