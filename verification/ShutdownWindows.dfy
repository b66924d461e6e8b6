/**
 Two short windows after a resume in which a change of the replicas decides whether the restart keeps its promises: from
 the resume to the scale up, and from there until rebalancing is enabled. In both the promise is kept exactly when the
 number of replicas is the one that was shut down.
 */
module ShutdownWindows {
  import opened ApiCalls
  import opened FlowControl
  import opened Operands
  import opened ShutdownModel
  import opened ShutdownPodsProofs
  import opened ShutdownSafety
  import opened ShutdownLiveness
  import opened ShutdownLimits
  import W = WellFormed

  function Edited(w: World, m: nat): World {
    w.(spec := w.spec.(replicas := m))
  }

  // A cluster that is neither shut down nor being upgraded.
  predicate Running(w: World) {
    && w.spec.version in w.known && !w.status.upgrade && !w.Required()
    && !w.status.graceful && !w.status.stopping && w.cluster.stateful.Some?
  }

  lemma RunFromScaling(w: World, e: Env)
    requires Running(w) && w.spec.replicas > 0 && e.halts == {}
    ensures Process(w, e) == At(ClusterScaling, false, Run(w, START), e)
  {
    Shutdown(w, e);
    Unroll(AwaitUpgrade, false, Run(w, START), e);
  }

  // ---- between the resume and the scale up ----

  // The StatefulSet is scaled up to whatever the spec asks for.
  lemma ScaleUpFollowsTheSpec(w: World, e: Env)
    requires Running(w) && w.spec.replicas > 0 && w.Size() == 0 && w.cluster.servers == []
    requires e.halts == {} && e.faults == map[]
    ensures var next := Reconcile(w, e); next.Size() == w.spec.replicas && next.past == w.past
  {
    var c := Run(w, START);
    RunFromScaling(w, e);
    Unroll(ClusterScaling, false, c, e);
    assert HandleClusterScaling(c, e) == c;
    Unroll(StatefulSetRollingUpgrade, false, c, e);
    Unroll(AwaitPodIps, false, Handle(StatefulSetRollingUpgrade, c, e), e);
  }

  // The StatefulSet asks for no replica or for as many as were shut down, until rebalancing is enabled.
  predicate Conserved(w: World) {
    w.past.awaiting ==> w.Size() == 0 || w.Size() == w.past.shutSize
  }

  // The next reconciliation conserves the replicas exactly when the edit asks for the size that was shut down.
  lemma NextReconcileConservesWhen(w: World, m: nat, e: Env)
    requires Inv(w) && ResumeWindow(w) && w.spec.version in w.known && m > 0 && e.halts == {} && e.faults == map[]
    ensures Conserved(Reconcile(Edited(w, m), e)) <==> m == w.past.shutSize
  {
    ScaleUpFollowsTheSpec(Edited(w, m), e);
  }

  lemma {:induction false} InvRuns(w: World, evs: seq<Event>)
    requires Inv(w) && LegalRun(w, evs)
    ensures Inv(Steps(w, evs))
  {
    if evs != [] {
      InvRuns(w, evs[..|evs| - 1]);
      StepKeeps(Steps(w, evs[..|evs| - 1]), evs[|evs| - 1]);
    }
  }

  lemma OneMoreEvent(w: World, evs: seq<Event>, ev: Event)
    requires LegalRun(w, evs) && Legal(Steps(w, evs), ev)
    ensures LegalRun(w, evs + [ev]) && Steps(w, evs + [ev]) == Step(Steps(w, evs), ev)
  {
    assert (evs + [ev])[..|evs + [ev]| - 1] == evs;
  }

  // Setting the replicas to 0 in the window leads, in six legal events, to a cluster of another size: the pods are
  // reported gone, the shutdown is recorded without a size, the user asks for one replica more, the cluster is resumed
  // and scaled up.
  lemma ZeroEditLosesSize(w: World, e: Env) returns (evs: seq<Event>)
    requires Inv(w) && ResumeWindow(w) && w.spec.version in w.known && e.halts == {} && e.faults == map[]
    ensures LegalRun(Edited(w, 0), evs) && !Conserved(Steps(Edited(w, 0), evs))
  {
    var start, m, settled := Edited(w, 0), w.past.shutSize + 1, Settle(w);
    evs := [Pods([]), Reported(0, 0)];
    TwoSteps(start, Pods([]), Reported(0, 0));
    SettleIsLegal(w);
    var gone := Steps(start, evs);
    assert gone == Edited(settled, 0);
    EditAfterResumeForgetsSize(settled, m, e);
    var down := Reconcile(gone, e);
    OneMoreEvent(start, evs, Reconciled(e));
    evs := evs + [Reconciled(e)];
    var ask := User(m, w.spec.version, w.spec.image);
    RecordedDown(gone, e);
    OneMoreEvent(start, evs, ask);
    evs := evs + [ask];
    var asked := Step(down, ask);
    assert asked == Edited(down, m);
    OneMoreEvent(start, evs, Reconciled(e));
    evs := evs + [Reconciled(e)];
    var up := Reconcile(asked, e);
    RecordedUp(asked, e);
    ScaleUpFollowsTheSpec(up, e);
    OneMoreEvent(start, evs, Reconciled(e));
    evs := evs + [Reconciled(e)];
  }

  lemma RecordedDown(w: World, e: Env)
    requires Running(w) && w.spec.replicas == 0 && ScaledToZero(w) && e.halts == {} && e.faults == map[]
    ensures Reconcile(w, e) == w.(status := w.status.(graceful := true, stopping := false))
  {
    Shutdown(w, e);
  }

  lemma RecordedUp(w: World, e: Env)
    requires w.spec.version in w.known && !w.status.upgrade && !w.Required() && w.status.graceful
             && w.status.wanted == 0
    requires w.cluster.stateful.Some? && w.spec.replicas > 0 && e.halts == {} && e.faults == map[]
    ensures Reconcile(w, e)
         == w.(status := w.status.(replicas := w.spec.replicas, wanted := 0, graceful := false, scalingUp := true))
  {
    Shutdown(w, e);
  }

  // Replica conservation in the window: whatever happens after the edit, the replicas are conserved, exactly when the
  // edit leaves the number that was shut down.
  lemma ReplicasAreConservedWhen(w: World, m: nat)
    requires Inv(w) && ResumeWindow(w) && w.spec.version in w.known
    ensures (forall evs :: LegalRun(Edited(w, m), evs) ==> Conserved(Steps(Edited(w, m), evs)))
            <==> m == w.past.shutSize
  {
    var e, start := GoodEnv(w), Edited(w, m);
    if m == w.past.shutSize {
      assert start == w;
      forall evs | LegalRun(start, evs) ensures Conserved(Steps(start, evs)) {
        InvRuns(w, evs);
      }
    } else if m == 0 {
      var evs := ZeroEditLosesSize(w, e);
      assert LegalRun(start, evs) && !Conserved(Steps(start, evs));
    } else {
      NextReconcileConservesWhen(w, m, e);
      OneMoreEvent(start, [], Reconciled(e));
      var evs := [] + [Reconciled(e)];
      assert LegalRun(start, evs) && !Conserved(Steps(start, evs));
    }
  }

  // ---- while the resumed cluster is forming ----

  // The promise broken: the cluster is well formed although rebalancing was never enabled.
  predicate SkipsRebalance(w: World) {
    w.past.awaiting && w.status.wellFormed == W.True
  }

  // A forming cluster whose replicas have been edited to `m`.
  predicate Misled(w: World, m: nat) {
    && Running(w) && w.past.awaiting && w.status.scalingUp && w.spec.replicas == m > 0 && w.status.replicas != m
    && AllUp(w.cluster.servers)
  }

  // First round: the StatefulSet is resized, and rebalancing has to wait for the pods.
  lemma ResizedRound(w: World, m: nat, e: Env)
    requires Misled(w, m) && w.Size() == w.status.replicas && Cooperative(Settle(w), e)
    ensures Misled(Round(w, e), m) && Round(w, e).Size() == m
  {
    var s := Settle(w);
    var c := Run(s, START);
    RunFromScaling(s, e);
    Unroll(ClusterScaling, false, c, e);
    assert HandleClusterScaling(c, e) == c;
    Unroll(StatefulSetRollingUpgrade, false, c, e);
    var c1 := Handle(StatefulSetRollingUpgrade, c, e);
    Unroll(AwaitPodIps, false, c1, e);
    Unroll(EnableRebalanceAfterScaleUp, false, c1, e);
    assert Handle(EnableRebalanceAfterScaleUp, c1, e) == Wait(c1, false);
  }

  // Second round: scaling up, or scaling down that was recorded, takes the ScalingUp condition with it.
  lemma ScalingRound(w: World, m: nat, e: Env)
    requires Misled(w, m) && w.Size() == m && Cooperative(Settle(w), e)
    ensures var next := Round(w, e);
            SkipsRebalance(next)
              || (Misled(next, m) && next.Size() == m && next.status.replicas > m && next.status.scalingDown)
    ensures w.status.replicas < m || w.status.scalingDown ==> SkipsRebalance(Round(w, e))
  {
    var s := Settle(w);
    var c := Run(s, START);
    RunFromScaling(s, e);
    if s.status.replicas > m && !s.status.scalingDown {
      Unroll(ClusterScaling, false, c, e);
    } else {
      ScalingClearsTheCondition(c, e);
    }
  }

  lemma ScalingClearsTheCondition(c: Run, e: Env)
    requires Serving(c.w) && Full(c.w) && Cooperative(c.w, e) && !c.flow.stop
    requires c.w.past.awaiting && c.w.status.scalingUp
    requires c.w.status.replicas != c.w.spec.replicas && c.w.Size() == c.w.spec.replicas
    requires c.w.status.replicas > c.w.spec.replicas ==> c.w.status.scalingDown
    ensures SkipsRebalance(At(ClusterScaling, false, c, e).w)
  {
    var w := c.w;
    Unroll(ClusterScaling, false, c, e);
    PvcsAreDeleted(w.cluster.pvcs, e, w.status.replicas, w.cluster.stateful.value.current);
    var c1 := Handle(ClusterScaling, c, e);
    assert !c1.flow.stop && !c1.w.status.scalingUp;
    Unroll(StatefulSetRollingUpgrade, false, c1, e);
    var c2 := Handle(StatefulSetRollingUpgrade, c1, e);
    assert c2 == c1;
    Unroll(AwaitPodIps, false, c2, e);
    Unroll(EnableRebalanceAfterScaleUp, false, c2, e);
    FromAwaitWellFormed(c2, e);
  }

  // Without a change the first round enables rebalancing.
  lemma FormedRound(w: World, e: Env)
    requires Inv(w) && FormingWindow(w) && Running(w) && w.spec.replicas == w.status.replicas
             && Cooperative(Settle(w), e)
    ensures !Round(w, e).past.awaiting
  {
    var s := Settle(w);
    var c := Run(s, START);
    RunFromScaling(s, e);
    Unroll(ClusterScaling, false, c, e);
    Unroll(StatefulSetRollingUpgrade, false, c, e);
    assert Handle(StatefulSetRollingUpgrade, c, e) == c;
    Unroll(AwaitPodIps, false, c, e);
    Unroll(EnableRebalanceAfterScaleUp, false, c, e);
  }

  // The state after `k` of the rounds.
  function After(w: World, es: seq<Env>, k: nat): World
    requires k <= |es|
  {
    if k == 0 then w else Round(After(w, es, k - 1), es[k - 1])
  }

  ghost predicate CooperativeRounds(w: World, es: seq<Env>) {
    forall k :: 0 <= k < |es| ==> Cooperative(Settle(After(w, es, k)), es[k])
  }

  lemma {:induction false} InvAfter(w: World, es: seq<Env>, k: nat)
    requires Inv(w) && k <= |es|
    ensures Inv(After(w, es, k))
  {
    if k > 0 {
      var before := After(w, es, k - 1);
      InvAfter(w, es, k - 1);
      if before.cluster.stateful.Some? { SettleIsLegal(before); }
      ReconcileKeeps(Settle(before), es[k - 1]);
    }
  }

  // Once an edit is in, one of the next three cooperative rounds leaves the cluster well formed with rebalancing still
  // off exactly when the edit changed the number of replicas; otherwise the first round enables rebalancing.
  lemma RebalanceIsSkippedWhen(w: World, m: nat, es: seq<Env>)
    requires Inv(w) && FormingWindow(w) && w.spec.version in w.known && !w.status.upgrade && !w.Required()
    requires m > 0 && w.spec.replicas > 0 && |es| == 3 && CooperativeRounds(Edited(w, m), es)
    ensures (exists k :: 1 <= k <= 3 && SkipsRebalance(After(Edited(w, m), es, k))) <==> m != w.status.replicas
    ensures m == w.status.replicas ==> !After(Edited(w, m), es, 1).past.awaiting
  {
    var start := Edited(w, m);
    assert Cooperative(Settle(After(start, es, 0)), es[0]);
    var first := After(start, es, 1);
    assert first == Round(start, es[0]);
    if m == w.status.replicas {
      assert start == w;
      FormedRound(w, es[0]);
      forall k | 1 <= k <= 3 ensures !SkipsRebalance(After(start, es, k)) {
        InvAfter(w, es, k);
      }
    } else {
      ThreeMisledRounds(w, m, es);
    }
  }

  lemma ThreeMisledRounds(w: World, m: nat, es: seq<Env>)
    requires Inv(w) && FormingWindow(w) && w.spec.version in w.known && !w.status.upgrade && !w.Required()
    requires m > 0 && w.spec.replicas > 0 && |es| == 3 && CooperativeRounds(Edited(w, m), es) && m != w.status.replicas
    ensures SkipsRebalance(After(Edited(w, m), es, 2)) || SkipsRebalance(After(Edited(w, m), es, 3))
  {
    var start := Edited(w, m);
    var first, second := After(start, es, 1), After(start, es, 2);
    assert Cooperative(Settle(start), es[0]) by { assert After(start, es, 0) == start; }
    var settled := Settle(start);
    assert Settle(settled) == settled;
    assert AllUp(settled.cluster.servers);
    ResizedRound(settled, m, es[0]);
    assert first == Round(settled, es[0]);
    assert Cooperative(Settle(first), es[1]) && Cooperative(Settle(second), es[2]);
    ScalingRound(first, m, es[1]);
    if !SkipsRebalance(second) {
      ScalingRound(second, m, es[2]);
    }
  }
}
