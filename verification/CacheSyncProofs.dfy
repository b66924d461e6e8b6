/**
 Echo suppression, finalizer safety and the recreate handshake of a Cache custom resource.
 */
module CacheSyncProofs {
  import opened ApiCalls
  import opened Operands
  import opened CacheSync

  // ---- what a reconciliation may touch ----

  // The resource in a run that has got to the server.
  predicate Active(w: World, c: CR) {
    w.cr == Some(c) && !c.meta.deleting && !c.meta.marked
  }

  lemma CreateOrUpdateTouches(w: World, c: CR, e: Env)
    requires Active(w, c)
    ensures var w' := CreateOrUpdate(w, c, e).0;
            && w'.cluster == w.cluster && w'.past == w.past && w'.cr.Some?
            && (w'.cr == w.cr || w'.cr == Some(c.(meta := c.meta.(controllerDelete := true))))
            && (w'.queue == w.queue || (w'.queue == w.queue + [Recreation(c.uid)] && w'.cr.value.meta.controllerDelete))
  {
  }

  predicate SameSpec(c: CR, d: CR) {
    d.uid == c.uid && d.spec == c.spec && d.meta.generation == c.meta.generation && d.meta.listener == c.meta.listener
    && d.meta.deleting == c.meta.deleting
  }

  lemma PushTouches(w: World, c: CR, e: Env)
    requires Active(w, c)
    ensures var w' := Push(w, c, e);
            && w'.past == w.past && w'.cr.Some? && SameSpec(c, w'.cr.value) && !w'.cr.value.meta.marked
            && (c.meta.finalizer ==> w'.cr.value.meta.finalizer)
            && (c.meta.controllerDelete ==> w'.cr.value.meta.controllerDelete)
            && (w'.queue == w.queue || (w'.queue == w.queue + [Recreation(c.uid)] && w'.cr.value.meta.controllerDelete))
            && (!ReconcileOnServer(c) ==> w'.server == w.server && w'.queue == w.queue)
  {
    CreateOrUpdateTouches(w, c, e);
  }

  // Every write of a reconciliation leaves the spec, the generation and the annotation alone, except that of the
  // update strategy.
  lemma ReconcileTouches(w: World, e: Env)
    requires w.cr.Some?
    ensures var c, w' := w.cr.value, Reconcile(w, e);
            && w'.past.nextUid == w.past.nextUid && w'.past.misled == w.past.misled
            && (|| w'.cr.None?
                || (SameSpec(c, w'.cr.value) && w'.past == w.past)
                || (&& !c.meta.deleting && w'.queue == w.queue && w'.past.writer == ByController
                    && w'.cr == Some(c.(spec := c.spec.(updates := Some(Retain)),
                                        meta := c.meta.(generation := c.meta.generation + 1)))))
  {
    var c := w.cr.value;
    if Active(w, c) {
      PushTouches(w, c, e);
    }
  }

  // ---- echo suppression ----

  // The generation annotation is the present generation exactly when the listener changed the spec last.
  predicate Stamped(w: World) {
    w.cr.Some? ==>
      var m := w.cr.value.meta;
      match m.listener
      case None => m.deleting || w.past.writer != ByListener
      case Some(g) => g <= m.generation && (!m.deleting ==> (g == m.generation <==> w.past.writer == ByListener))
  }

  // The listener writes only what differs from the spec.
  predicate Effective(w: World, ev: Event) {
    ev.Listened? && w.cr.Some? && w.cr.value.spec.template != "" ==>
      ListenedSpec(w.cr.value.spec, ev.template) != w.cr.value.spec
  }

  predicate EffectiveRun(w: World, evs: seq<Event>) {
    evs == [] || (EffectiveRun(w, evs[..|evs| - 1]) && Effective(Steps(w, evs[..|evs| - 1]), evs[|evs| - 1]))
  }

  lemma StampedStep(w: World, ev: Event)
    requires Stamped(w) && Effective(w, ev)
    ensures Stamped(Step(w, ev))
  {
    if ev.Reconciled? && w.cr.Some? {
      ReconcileTouches(w, ev.e);
    }
  }

  lemma {:induction false} StampedRun(w: World, evs: seq<Event>)
    requires Initial(w) && EffectiveRun(w, evs)
    ensures Stamped(Steps(w, evs))
  {
    if evs != [] {
      StampedRun(w, evs[..|evs| - 1]);
      StampedStep(Steps(w, evs[..|evs| - 1]), evs[|evs| - 1]);
    }
  }

  // Over every interleaving: the server is contacted exactly when the last change of the spec was not the listener's.
  lemma EchoIsSuppressed(w: World, evs: seq<Event>)
    requires Initial(w) && EffectiveRun(w, evs)
    ensures var now := Steps(w, evs);
            now.cr.Some? && !now.cr.value.meta.deleting ==>
              (ReconcileOnServer(now.cr.value) <==> now.past.writer != ByListener)
  {
    StampedRun(w, evs);
  }

  // A suppressed reconciliation leaves the server alone.
  lemma SuppressedLeavesServer(w: World, e: Env)
    requires w.cr.Some? && Active(w, w.cr.value) && !ReconcileOnServer(w.cr.value)
    ensures Reconcile(w, e).server == w.server && Reconcile(w, e).queue == w.queue
  {
    PushTouches(w, w.cr.value, e);
  }

  // A listener update that leaves the spec as it is still stamps the next generation, so it silences the user's next
  // edit: that edit reaches the server exactly when the update changed something.
  lemma IdleUpdateSwallowsNextEdit(w: World, template: string, spec: Spec)
    requires Stamped(w) && w.cr.Some? && !w.cr.value.meta.deleting && w.cr.value.spec.template != ""
    requires Listen(w, template).cr.value.spec != spec
    ensures var c, edited := w.cr.value, Step(Listen(w, template), Edited(spec));
            && edited.cr.value.spec == spec && edited.past.writer == ByUser
            && (ReconcileOnServer(edited.cr.value) <==> ListenedSpec(c.spec, template) != c.spec)
  {
  }

  // ---- pushing ----

  // An undisturbed reconciliation that contacts the server and does not find it equivalent leaves it with exactly the
  // configuration asked for, and the resource ready and finalized.
  lemma PushConverges(w: World, e: Env)
    requires w.cr.Some? && Active(w, w.cr.value) && ReconcileOnServer(w.cr.value)
    requires w.cluster == Usable && !e.paused && w.cr.value.spec.updates.Some?
             && (w.cr.value.spec.refs != [] ==> e.refsReady)
    requires e.faults == map[] && (w.cr.value.spec.template != "" || w.cr.value.spec.templateName != "")
    ensures var c, w' := w.cr.value, Reconcile(w, e);
            && w'.cr.value.ready && w'.cr.value.meta.finalizer && w'.queue == w.queue
            && w'.server == (if w.server.Some? && (c.spec.template == "" || e.same) then w.server
                             else if w.server.None? && c.spec.templateName != "" then Some(e.named)
                             else Some(c.spec.template))
  {
  }

  // ---- finalizer safety ----

  // A finalized resource is released only by a reconciliation, and only if the listener marked it, or it is being
  // deleted and its cluster is gone, or it is being deleted and the server has just removed the cache.
  lemma FinalizerIsSafe(w: World, ev: Event)
    requires w.cr.Some? && w.cr.value.meta.finalizer
    ensures var c, w' := w.cr.value, Step(w, ev);
            w'.cr.None? || !w'.cr.value.meta.finalizer ==>
              && ev.Reconciled?
              && (|| c.meta.marked
                  || (c.meta.deleting && w.cluster == Gone)
                  || (c.meta.deleting && w.cluster == Usable && ev.e.Of(DeleteCache) == Ok && w'.server.None?))
  {
    if ev.Reconciled? && Active(w, w.cr.value) {
      PushTouches(w, w.cr.value, ev.e);
    }
  }

  // ---- the recreate handshake ----

  // A removal that is part of the recreation of the present resource is announced, and first in the queue.
  ghost predicate Announced(w: World) {
    && (w.cr.Some? ==> w.cr.value.uid < w.past.nextUid)
    && (forall k :: 0 <= k < |w.queue| && w.queue[k].Recreation? ==> w.queue[k].uid < w.past.nextUid)
    && (w.cr.Some? ==> forall k :: 0 <= k < |w.queue| && w.queue[k] == Recreation(w.cr.value.uid) ==>
          k == 0 && (w.cr.value.meta.controllerDelete || w.cr.value.meta.deleting))
    && !w.past.misled
  }

  // The reconciliation removes the cache from the server in order to create it again.
  predicate Recreates(w: World, e: Env) {
    w.cr.Some? && Reconcile(w, e).queue == w.queue + [Recreation(w.cr.value.uid)]
  }

  // The discipline that makes the handshake work: a recreation starts only when the listener has seen every remove
  // event, whoever caused it.
  predicate Disciplined(w: World, ev: Event) {
    ev.Reconciled? && Recreates(w, ev.e) ==> w.queue == []
  }

  predicate DisciplinedRun(w: World, evs: seq<Event>) {
    evs == [] || (DisciplinedRun(w, evs[..|evs| - 1]) && Disciplined(Steps(w, evs[..|evs| - 1]), evs[|evs| - 1]))
  }

  lemma QueueGrows(w: World, e: Env)
    requires w.cr.Some?
    ensures var c, w' := w.cr.value, Reconcile(w, e);
            || (w'.queue == w.queue
                && (w'.cr.Some? && c.meta.controllerDelete ==> w'.cr.value.meta.controllerDelete))
            || (w'.queue == w.queue + [Finalization] && c.meta.deleting)
            || (w'.queue == w.queue + [Recreation(c.uid)] && w'.cr.Some? && w'.cr.value.meta.controllerDelete)
  {
    if Active(w, w.cr.value) {
      PushTouches(w, w.cr.value, e);
    }
  }

  lemma AnnouncedReconcile(w: World, e: Env)
    requires Announced(w) && Disciplined(w, Reconciled(e))
    ensures Announced(Reconcile(w, e))
  {
    if w.cr.Some? {
      ReconcileTouches(w, e);
      QueueGrows(w, e);
      var w' := Reconcile(w, e);
      if w'.queue == w.queue + [Recreation(w.cr.value.uid)] {
        assert Recreates(w, e) && w.queue == [];
      }
    }
  }

  lemma AnnouncedConsume(w: World, o: Outcome)
    requires Announced(w)
    ensures Announced(Consume(w, o))
  {
    if w.queue != [] {
      var w' := Consume(w, o);
      assert forall k :: 0 <= k < |w'.queue| ==> w'.queue[k] == w.queue[k + 1];
    }
  }

  lemma AnnouncedStep(w: World, ev: Event)
    requires Announced(w) && Disciplined(w, ev)
    ensures Announced(Step(w, ev))
  {
    match ev
    case Reconciled(e) => AnnouncedReconcile(w, e);
    case Consumed(o) => AnnouncedConsume(w, o);
    case _ =>
  }

  lemma {:induction false} AnnouncedRun(w: World, evs: seq<Event>)
    requires Initial(w) && DisciplinedRun(w, evs)
    ensures Announced(Steps(w, evs))
  {
    if evs != [] {
      AnnouncedRun(w, evs[..|evs| - 1]);
      AnnouncedStep(Steps(w, evs[..|evs| - 1]), evs[|evs| - 1]);
    }
  }

  // Whatever fails in it, a recreation never makes the listener mark its own resource for deletion, provided the
  // listener has seen every remove event when the recreation starts.
  lemma RecreationIsNotMisread(w: World, evs: seq<Event>)
    requires Initial(w) && DisciplinedRun(w, evs)
    ensures !Steps(w, evs).past.misled
  {
    AnnouncedRun(w, evs);
  }

  // The listener works off its queue.
  function ConsumeAll(w: World): World
    decreases |w.queue|
  {
    if w.queue == [] then w else ConsumeAll(Consume(w, Ok))
  }

  lemma {:induction false} UnannouncedRemovalMarks(w: World)
    requires w.cr.Some? && !w.cr.value.meta.controllerDelete && !w.cr.value.meta.deleting
    requires w.queue != [] && w.queue[|w.queue| - 1] == Recreation(w.cr.value.uid)
    ensures var w' := ConsumeAll(w); w'.past.misled && w'.cr.Some? && w'.cr.value.meta.marked
    decreases |w.queue|
  {
    var next := Consume(w, Ok);
    if |w.queue| > 1 {
      assert next.queue[|next.queue| - 1] == w.queue[|w.queue| - 1];
      UnannouncedRemovalMarks(next);
    } else {
      assert ConsumeAll(next) == next;
    }
  }

  // The discipline is needed in full: it does not matter who caused the removals still in the queue. A recreation in
  // which nothing fails is misread, and its resource marked for deletion, exactly when the queue was not empty.
  lemma RecreationIsMisreadWhen(w: World, e: Env)
    requires w.cr.Some? && Active(w, w.cr.value) && ReconcileOnServer(w.cr.value) && !w.past.misled
    requires w.cluster == Usable && !e.paused && (w.cr.value.spec.refs != [] ==> e.refsReady)
    requires w.cr.value.spec.updates == Some(Strategy.Recreate) && w.cr.value.spec.template != "" && w.server.Some?
             && !e.same
    requires e.faults == map[UpdateConfig := Failed]
    ensures var w' := Reconcile(w, e);
            && Recreates(w, e) && w'.server == Some(w.cr.value.spec.template)
            && (ConsumeAll(w').past.misled <==> w.queue != [])
            && (w.queue != [] ==> ConsumeAll(w').cr.Some? && ConsumeAll(w').cr.value.meta.marked)
  {
    var w' := Reconcile(w, e);
    assert w'.queue == w.queue + [Recreation(w.cr.value.uid)];
    var next := Consume(w', Ok);
    if w.queue == [] {
      assert ConsumeAll(next) == next;
    } else {
      assert next.queue[|next.queue| - 1] == w'.queue[|w'.queue| - 1];
      UnannouncedRemovalMarks(next);
    }
  }
}
