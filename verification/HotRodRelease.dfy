/**
 Which release a Hot Rod rolling upgrade ends on, and what becomes of a request that differs in the image alone.
 */
module HotRodRelease {
  import opened ApiCalls
  import opened Operands
  import opened HotRodModel
  import opened HotRodScripts
  import opened HotRodSafety
  import opened HotRodFinish
  import opened HotRodProgress
  import N = FreshNames

  // The release and the image asked for are the ones recorded.
  predicate RecordsRequest(w: World)
    requires w.request.version in w.settings.known
  {
    && w.status.operand.version == Some(w.request.version)
    && w.status.operand.customImage == w.request.image.Some?
    && w.status.operand.image == match w.request.image
                                 case Some(image) => image
                                 case None => w.settings.known[w.request.version].image
  }

  predicate SameOperand(a: OperandStatus, b: OperandStatus) {
    a.version == b.version && a.image == b.image && a.customImage == b.customImage
  }

  // ---- what one reconciliation records ----

  // The operand changes only when an upgrade is scheduled, to what is asked for, and when a rollback is over, to the
  // source release with the image asked for. Its phase becomes Running only with the target in use, with a rollback
  // over, or with the cluster found well formed.
  predicate OperandMoves(w: World, w': World, e: Env) {
    var before, after := w.status.operand, w'.status.operand;
    && w'.request == w.request && w'.settings == w.settings
    && (if w.status.upgrade.None? && w'.status.upgrade.Some?
        then w.request.version in w.settings.known && RecordsRequest(w') && after.phase == Pending
        else if w.status.upgrade.Some? && w'.status.upgrade.None? && w.RequestsSource()
        then && after.version == w.status.upgrade.value.sourceVersion && after.phase == Running
             && after.customImage == w.request.image.Some?
             && (w.request.image.Some? ==> after.image == w.request.image.value)
             && (w.request.image.None? ==> after.image == w.settings.known[after.version.value].image)
        else && SameOperand(before, after)
             && (before.phase == Pending && after.phase == Running ==>
                   e.observed == Some(true) || w'.status.name != w.status.name))
  }

  lemma HandleRecords(w: World, u: Upgrade, e: Env)
    requires Inv(w) && w.status.upgrade == Some(u)
    ensures OperandMoves(w, HandleUpgrade(w, e), e)
  {
    if w.RequestsSource() {
      assert w.settings.known[u.sourceVersion.value].Ref() == u.sourceVersion.value;
    }
  }

  lemma ScheduleRecords(w: World, e: Env)
    requires Inv(w) && w.status.upgrade.None? && w.request.version in w.settings.known
    ensures OperandMoves(w, Schedule(w, e), e)
  {
    assert w.settings.known[w.request.version].Ref() == w.request.version;
  }

  lemma ObserveRecords(w: World, w': World, e: Env)
    requires OperandMoves(w, w', e) && (w.status.upgrade.None? ==> w'.status.upgrade.None?)
    ensures OperandMoves(w, Observe(w', e), e)
  {
  }

  lemma ManageRecords(w: World, e: Env)
    requires Inv(w)
    ensures OperandMoves(w, ManageFrom(w, e), e)
  {
    if w.status.upgrade.Some? {
      HandleRecords(w, w.status.upgrade.value, e);
    }
    if !(Managing in e.stops || w.status.name !in w.store.sets) {
      ObserveRecords(w, HandleUpgrade(w, e), e);
    }
  }

  lemma AfterScheduleRecords(w: World, e: Env)
    requires Inv(w)
    ensures OperandMoves(w, AfterSchedule(w, e), e)
  {
    if w.status.upgrade.Some? {
      ManageRecords(w, e);
    } else if Provisioning !in e.stops {
      ProvisionRuns(w, e);
      var (w1, ok) := Provision(w, e);
      if ok {
        assert HandleUpgrade(w1, e) == w1;
        ObserveRecords(w, w1, e);
      }
    }
  }

  lemma StoreDoesNotMatter(w: World, s: Store, w': World, e: Env)
    requires OperandMoves(WithStore(w, s), w', e)
    ensures OperandMoves(w, w', e)
  {
  }

  lemma ReconcileRecords(w: World, e: Env)
    requires Inv(w)
    ensures OperandMoves(w, Reconcile(w, e), e)
  {
    PutUserKeeps(w, e);
    var (s, ok) := Execute(w.settings, w.store, [Put(User)], 0, e);
    var w0 := WithStore(w, s);
    if w.request.version in w.settings.known && ok && Scheduling !in e.stops {
      if w.status.upgrade.None? && w.Required() {
        ScheduleRecords(w0, e);
      } else {
        AfterScheduleRecords(w0, e);
      }
      StoreDoesNotMatter(w, s, Reconcile(w, e), e);
    }
  }

  // ---- when an upgrade is scheduled ----

  lemma UpgradeIsScheduledWhen(w: World, e: Env)
    requires Inv(w) && w.status.upgrade.None?
    ensures var next := Reconcile(w, e);
            next.status.upgrade.Some? <==>
              && w.request.version in w.settings.known && w.status.operand.phase == Running
              && !Installed(w.status.operand, w.request.image, w.settings.known[w.request.version], w.settings.known)
              && e.Of(Do(Put(User))) == Ok && Scheduling !in e.stops && e.Of(ScheduleUpdate) != Failed
  {
    var ops := [Put(User)];
    assert e.Of(Do(ops[0])) == Ok ==>
        Execute(w.settings, w.store, ops, 0, e)
        == Execute(w.settings, Effect(w.settings, w.store, ops[0]), ops, 1, e);
    if w.request.version in w.settings.known {
      UpgradeRequiredWhen(w.status.operand, w.request.image, w.settings.known[w.request.version], w.settings.known);
    }
  }

  // ---- an undisturbed upgrade ----

  // The target has been put in use with its operand running.
  predicate OnItsWay(w: World, u: Upgrade) {
    && w.request.version in w.settings.known && RecordsRequest(w)
    && (u.stage == Cleanup ==> w.status.operand.phase == Running)
  }

  lemma StepRecords(w: World, u: Upgrade, e: Env)
    requires Forward(w, u) && Smooth(w, e) && w.status.wellFormed && OnItsWay(w, u)
    ensures var w' := Reconcile(w, e);
            && w'.request == w.request && w'.settings == w.settings && RecordsRequest(w')
            && (w'.status.upgrade.Some? ==> OnItsWay(w', w'.status.upgrade.value))
            && (w'.status.upgrade.None? ==> w'.status.operand.phase == Running)
  {
    ReconcileAdvances(w, u, e);
    ReconcileRecords(w, e);
    ReconcileIsHandled(w, e);
    PuttingKeepsForward(w, u);
    var w0 := WithStore(w, Effect(w.settings, w.store, Put(User)));
    HandleAdvances(w0, u, e);
    PhaseAtTheEnd(w0, u, e);
  }

  lemma PhaseAtTheEnd(w: World, u: Upgrade, e: Env)
    requires Inv(w) && w.status.upgrade == Some(u) && !w.RequestsSource()
    requires u.stage == Cleanup ==> w.status.operand.phase == Running
    ensures var w' := HandleUpgrade(w, e);
            w'.status.upgrade.None? || w'.status.upgrade.value.stage == Cleanup ==> w'.status.operand.phase == Running
  {
  }

  lemma {:induction false} UpgradeRecords(w: World, u: Upgrade, es: seq<Env>)
    requires Forward(w, u) && w.status.wellFormed && SmoothRun(w, es) && |es| >= Remaining(w) && OnItsWay(w, u)
    ensures var w' := UntilOver(w, es);
            && w'.request == w.request && w'.settings == w.settings
            && RecordsRequest(w') && w'.status.operand.phase == Running
    decreases |es|
  {
    var next := Reconcile(w, es[0]);
    ReconcileAdvances(w, u, es[0]);
    StepRecords(w, u, es[0]);
    if next.status.upgrade.Some? {
      UpgradeRecords(next, next.status.upgrade.value, es[1..]);
    } else {
      assert UntilOver(next, es[1..]) == next;
    }
  }

  // The reconciliation that schedules.
  lemma Schedules(w: World, e: Env)
    requires Inv(w) && w.status.upgrade.None? && w.request.version in w.settings.known && w.Required()
    requires Undisturbed(e)
    ensures Reconcile(w, e) == Schedule(WithStore(w, Effect(w.settings, w.store, Put(User))), e)
  {
    var ops := [Put(User)];
    var s1 := Effect(w.settings, w.store, ops[0]);
    assert Execute(w.settings, s1, ops, 1, e) == (s1, true);
  }

  lemma FirstStep(w: World, e: Env)
    requires Inv(w) && w.status.upgrade.None? && w.request.version in w.settings.known && w.Required()
    requires Undisturbed(e)
    ensures var first := Reconcile(w, e);
            && Inv(first) && first.request == w.request && first.settings == w.settings
            && first.status.wellFormed == w.status.wellFormed && first.store.sets == w.store.sets
            && first.status.upgrade == Some(Upgrade(Start, w.status.name, N.Generate(w.status.name, w.settings.max),
                                                    w.status.operand.version))
            && RecordsRequest(first)
            && (first.RequestsSource() <==>
                  w.settings.known[w.request.version].EQ(w.settings.known[w.status.operand.version.value]))
            && first.status.upgrade.value.target != w.status.name
  {
    Schedules(w, e);
    ReconcileKeeps(w, e);
    ReconcileRecords(w, e);
  }

  // The upgrade is over, with a new StatefulSet of the release asked for in use.
  ghost predicate PutInUse(w: World, done: World) {
    && done.request == w.request && done.settings == w.settings && done.request.version in done.settings.known
    && done.status.upgrade.None? && Plain(done.status.name, done.store)
    && done.status.name == N.Generate(w.status.name, w.settings.max) != w.status.name
    && RecordsRequest(done) && done.status.operand.phase == Running && !done.Required()
  }

  // The upgrade is over with the old StatefulSet still in use, although the image recorded is the one asked for.
  ghost predicate OnlyRecorded(w: World, done: World) {
    && done.status.upgrade.None? && done.status.name == w.status.name && done.store.sets == w.store.sets
    && done.status.operand.version == w.status.operand.version && done.status.operand.phase == Running
    && done.status.operand.customImage == w.request.image.Some?
    && (w.request.image.Some? ==> done.status.operand.image == w.request.image.value)
  }

  // From any idle cluster whose running release is not what is asked for, nothing being disturbed: after the
  // reconciliation that schedules the upgrade and seven more, a new StatefulSet of the release asked for is in use, the
  // request is what is recorded, and no further upgrade is required. But this needs another release: a request that
  // differs in the image alone is taken for a rollback at once, and its image recorded over the old StatefulSet.
  lemma UpgradeInstallsRequestWhen(w: World, e: Env, es: seq<Env>)
    requires Inv(w) && w.status.upgrade.None? && w.status.wellFormed && w.status.operand.phase == Running
    requires w.request.version in w.settings.known && w.Required() && Smooth(w, e) && SmoothRun(w, es) && |es| >= 7
    ensures var done := UntilOver(Reconcile(w, e), es);
            if w.settings.known[w.request.version].EQ(w.settings.known[w.status.operand.version.value])
            then OnlyRecorded(w, done) else PutInUse(w, done)
  {
    var first := Reconcile(w, e);
    FirstStep(w, e);
    if first.RequestsSource() {
      RolledBackAtOnce(first, first.status.upgrade.value, es);
      OldSetIsKept(w, first, UntilOver(first, es));
    } else {
      CarriedThrough(first, first.status.upgrade.value, es);
    }
  }

  lemma OldSetIsKept(w: World, first: World, done: World)
    requires Inv(w) && w.status.upgrade.None? && w.status.operand.phase == Running && first.store.sets == w.store.sets
    requires done.store.sets == map[w.status.name := first.store.sets[w.status.name]]
    ensures done.store.sets == w.store.sets
  {
    assert w.store.sets.Keys == {w.status.name};
  }

  lemma CarriedThrough(w: World, u: Upgrade, es: seq<Env>)
    requires Forward(w, u) && w.status.wellFormed && SmoothRun(w, es) && |es| >= Remaining(w) && OnItsWay(w, u)
    ensures var done := UntilOver(w, es);
            && done.status.upgrade.None? && done.status.name == u.target && Plain(u.target, done.store)
            && done.request == w.request && done.settings == w.settings
            && RecordsRequest(done) && done.status.operand.phase == Running && !done.Required()
  {
    UpgradeFinishes(w, u, es);
    UpgradeRecords(w, u, es);
    var done, requested := UntilOver(w, es), w.settings.known[w.request.version];
    assert requested.Ref() == w.request.version;
    assert done.status.operand == StatusOf(w.request.image, Running, requested);
    RecordedOperandIsSettled(w.request.image, Running, requested, w.settings.known);
  }

  lemma RolledBackAtOnce(w: World, u: Upgrade, es: seq<Env>)
    requires Inv(w) && w.status.upgrade == Some(u) && u.stage == Start && w.RequestsSource()
    requires w.request.version in w.settings.known && es != [] && Undisturbed(es[0])
    ensures var done := UntilOver(w, es);
            && done.status.upgrade.None? && done.status.name == u.source && Plain(u.source, done.store)
            && done.store.sets == map[u.source := w.store.sets[u.source]]
            && done.request == w.request && done.settings == w.settings
            && done.status.operand.version == u.sourceVersion && done.status.operand.phase == Running
            && done.status.operand.customImage == w.request.image.Some?
            && (w.request.image.Some? ==> done.status.operand.image == w.request.image.value)
  {
    UndisturbedFinishes(w, u, es[0]);
    RollbackRestoresTheSource(w, u, es[0]);
    ReconcileKeeps(w, es[0]);
    ReconcileRecords(w, es[0]);
    assert UntilOver(Reconcile(w, es[0]), es[1..]) == Reconcile(w, es[0]);
  }

  // ---- lost answers and failures ----

  // The same environment, in which the answers to updates of the custom resource are not lost.
  function Answered(e: Env): Env {
    e.(faults := map call | call in e.faults :: if call.Do? || e.faults[call] == Failed then e.faults[call] else Ok)
  }

  lemma {:induction false} SameScript(g: Settings, s: Store, ops: seq<Op>, k: nat, e: Env)
    requires k <= |ops|
    ensures Execute(g, s, ops, k, Answered(e)) == Execute(g, s, ops, k, e)
    decreases |ops| - k
  {
    if k < |ops| {
      assert Answered(e).Of(Do(ops[k])) == e.Of(Do(ops[k]));
      SameScript(g, Effect(g, s, ops[k]), ops, k + 1, e);
    }
  }

  lemma SameStart(w: World, u: Upgrade, e: Env)
    requires w.status.upgrade == Some(u)
    ensures RunStart(w, u, Answered(e)) == RunStart(w, u, e)
  {
    SameScript(w.settings, w.store, PinToSource(w, u), 0, e);
    var pinned := WithStore(w, Execute(w.settings, w.store, PinToSource(w, u), 0, e).0);
    SameScript(w.settings, pinned.store, CreateTarget(pinned, u), 0, e);
    assert e.Of(StageUpdate) == Failed <==> Answered(e).Of(StageUpdate) == Failed;
  }

  lemma SameMigration(w: World, u: Upgrade, e: Env)
    requires w.status.upgrade == Some(u)
    ensures RunMigration(w, u, Answered(e)) == RunMigration(w, u, e)
  {
    assert e.Of(StageUpdate) == Failed <==> Answered(e).Of(StageUpdate) == Failed;
    match u.stage
    case Start => SameStart(w, u, e);
    case Redirect => SameScript(w.settings, w.store, RedirectTo(w.settings, u.target), 0, e);
    case Replace => SameScript(w.settings, w.store, [Select(Admin, Only(u.target))], 0, e);
    case Cleanup => SameScript(w.settings, w.store, Removal(w.settings, w.status.name, u.source), 0, e);
    case _ =>
  }

  lemma SameHandler(w: World, e: Env)
    ensures HandleUpgrade(w, Answered(e)) == HandleUpgrade(w, e)
  {
    if w.status.upgrade.Some? {
      SameMigration(w, w.status.upgrade.value, e);
      SameScript(w.settings, w.store, RollbackScript(w, w.status.upgrade.value), 0, e);
    }
  }

  // An update of the custom resource whose answer is lost counts as one that succeeds: the next reconciliation goes on
  // from what is stored.
  lemma LostAnswersDoNotMatter(w: World, e: Env)
    ensures Reconcile(w, Answered(e)) == Reconcile(w, e)
  {
    SameScript(w.settings, w.store, [Put(User)], 0, e);
    var w0 := WithStore(w, Execute(w.settings, w.store, [Put(User)], 0, e).0);
    SameScript(w.settings, w0.store, ProvisionScript(w0), 0, e);
    var s := Execute(w.settings, w0.store, ProvisionScript(w0), 0, e).0;
    SameScript(w.settings, s, WhenExposed(w.settings, Put(Outer)), 0, e);
    SameHandler(w0, e);
    SameHandler(Provision(w0, e).0, e);
  }

  lemma NothingExecuted(g: Settings, s: Store, ops: seq<Op>, e: Env)
    requires forall call :: e.Of(call) == Failed
    ensures Execute(g, s, ops, 0, e).0 == s
  {
  }

  // A reconciliation in which no call has an effect has none.
  lemma FailuresChangeNothing(w: World, e: Env)
    requires forall call :: e.Of(call) == Failed
    ensures Reconcile(w, e) == w
  {
    NothingExecuted(w.settings, w.store, [Put(User)], e);
  }
}
