/**
 What the Cache controller may do to the data of a cache: which update strategy removes it and when, what a ready
 resource stands for, and that changes and removals pass from either side to the other.
 */
module CacheStrategies {
  import opened ApiCalls
  import opened Operands
  import opened CacheSync
  import opened CacheSyncProofs

  // The reconciliation gets to the cache on the server.
  predicate GetsThrough(w: World, e: Env) {
    && w.cr.Some? && Active(w, w.cr.value) && !e.paused && w.cr.value.spec.updates.Some? && w.cluster == Usable
    && (w.cr.value.spec.refs != [] ==> e.refsReady) && e.Of(NewClient) == Ok
  }

  // ---- the strategies ----

  // Under any strategy but Recreate the data survive: whatever fails, the cache of a resource that is not being deleted
  // is not removed, and no remove event arises. If it is changed at all it holds the template asked for.
  lemma RetainKeepsData(w: World, e: Env)
    requires w.cr.Some? && !w.cr.value.meta.deleting && w.cr.value.spec.updates != Some(Strategy.Recreate)
    ensures var w' := Reconcile(w, e);
            && w'.queue == w.queue && (w.server.Some? ==> w'.server.Some?)
            && (w.server.Some? && w'.server != w.server ==> w'.server == Some(w.cr.value.spec.template))
  {
    var c := w.cr.value;
    if GetsThrough(w, e) {
      PushWrites(w, c, e);
      UpdateRetains(w, c, e);
    }
  }

  lemma UpdateRetains(w: World, c: CR, e: Env)
    requires Active(w, c) && c.spec.updates.Some? && c.spec.updates.value == Retain
    ensures var w' := CreateOrUpdate(w, c, e).0;
            && w'.queue == w.queue && (w.server.Some? ==> w'.server.Some?)
            && (w.server.Some? && w'.server != w.server ==> w'.server == Some(c.spec.template))
  {
    assert c.spec.updates == Some(Retain);
  }

  // Outside CreateOrUpdate a push only writes the resource.
  lemma PushWrites(w: World, c: CR, e: Env)
    requires Active(w, c)
    ensures var w1, w' := if ReconcileOnServer(c) then CreateOrUpdate(w, c, e).0 else w, Push(w, c, e);
            && w'.server == w1.server && w'.queue == w1.queue && w'.cr.Some?
            && w'.cr.value.meta.controllerDelete == Current(w1, c).meta.controllerDelete
  {
    CreateOrUpdateTouches(w, c, e);
  }

  // The server cannot change the configuration in place, or its answer is lost.
  predicate UpdateFails(w: World, e: Env) {
    && GetsThrough(w, e) && ReconcileOnServer(w.cr.value) && w.server.Some? && w.cr.value.spec.template != ""
    && e.Of(CacheExists) == Ok && e.Of(CacheConfig) == Ok && e.Of(CompareConfig) == Ok && !e.same
    && e.Of(UpdateConfig) != Ok
  }

  // A reconciliation of a resource that is not being deleted removes the cache exactly when the strategy is Recreate,
  // the configuration cannot be changed in place, and the removal has been announced; it is then missing exactly when
  // the answer to the removal is lost or the creation has no effect.
  lemma CacheIsRemovedWhen(w: World, e: Env)
    requires w.cr.Some? && !w.cr.value.meta.deleting && w.server.Some?
    ensures var c, w' := w.cr.value, Reconcile(w, e);
            var removed := && UpdateFails(w, e) && c.spec.updates == Some(Strategy.Recreate)
                           && e.Of(AnnotateDelete) == Ok && e.Of(DeleteCache) != Failed;
            && w'.queue == (if removed then w.queue + [Recreation(c.uid)] else w.queue)
            && (w'.server.None? <==> removed && (e.Of(DeleteCache) == Lost || e.Of(CreateCache) == Failed))
            && (removed ==> w'.cr.Some? && w'.cr.value.meta.controllerDelete)
            && (removed && w'.server.Some? ==> w'.server == Some(c.spec.template))
  {
    if GetsThrough(w, e) {
      PushWrites(w, w.cr.value, e);
      UpdateRemovesWhen(w, w.cr.value, e);
    }
  }

  lemma UpdateRemovesWhen(w: World, c: CR, e: Env)
    requires Active(w, c) && c.spec.updates.Some? && w.server.Some?
    ensures var w' := CreateOrUpdate(w, c, e).0;
            var removed := && c.spec.template != "" && e.Of(CacheExists) == Ok && e.Of(CacheConfig) == Ok
                           && e.Of(CompareConfig) == Ok && !e.same && e.Of(UpdateConfig) != Ok
                           && c.spec.updates == Some(Strategy.Recreate)
                           && e.Of(AnnotateDelete) == Ok && e.Of(DeleteCache) != Failed;
            && w'.queue == (if removed then w.queue + [Recreation(c.uid)] else w.queue)
            && (w'.server.None? <==> removed && (e.Of(DeleteCache) == Lost || e.Of(CreateCache) == Failed))
            && (removed ==> w'.cr.Some? && w'.cr.value.meta.controllerDelete)
            && (removed && w'.server.Some? ==> w'.server == Some(c.spec.template))
  {
    if c.spec.updates.value == Retain {
      assert c.spec.updates == Some(Retain);
    } else {
      assert c.spec.updates == Some(Strategy.Recreate);
    }
  }

  // A missing cache is created exactly when it is described, the server can be asked, and the creation has an effect;
  // by the template on the server if one is named.
  lemma CacheIsCreatedWhen(w: World, e: Env)
    requires GetsThrough(w, e) && ReconcileOnServer(w.cr.value) && w.server.None?
    ensures var spec, w' := w.cr.value.spec, Reconcile(w, e);
            && (w'.server.Some? <==>
                  && (spec.template != "" || spec.templateName != "")
                  && e.Of(CacheExists) == Ok && e.Of(CreateCache) != Failed)
            && (w'.server.Some? ==> w'.server == Some(if spec.templateName != "" then e.named else spec.template))
            && w'.queue == w.queue
  {
  }

  // Under Retain an update that fails is reported, and nothing else happens.
  lemma FailedUpdateIsReported(w: World, e: Env)
    requires UpdateFails(w, e) && w.cr.value.spec.updates == Some(Retain) && e.Of(SetNotReady) != Failed
    ensures var c, w' := w.cr.value, Reconcile(w, e);
            && w'.cr == Some(c.(ready := false))
            && w'.server == (if e.Of(UpdateConfig) == Failed then w.server else Some(c.spec.template))
  {
  }

  // ---- what Ready stands for ----

  // The server holds what the resource asks for, or something it calls equivalent; a template on the server is only
  // looked at when the cache is created.
  predicate Serves(w: World, w': World, e: Env)
    requires w.cr.Some?
  {
    var spec := w.cr.value.spec;
    && w'.server.Some? && (spec.template != "" || spec.templateName != "")
    && (if w.server.Some? && (spec.template == "" || e.same) then w'.server == w.server
        else if w.server.None? && spec.templateName != "" then w'.server == Some(e.named)
        else w'.server == Some(spec.template))
  }

  // Whatever fails in a reconciliation that contacts the server, a resource it leaves ready is served, provided that
  // the write that would report otherwise takes effect: a resource that was ready before does not stay so over a
  // failure.
  lemma ReadyMeansServed(w: World, e: Env)
    requires GetsThrough(w, e) && ReconcileOnServer(w.cr.value) && e.Of(SetNotReady) != Failed
    ensures var w' := Reconcile(w, e);
            && w'.cr.Some? && (w'.cr.value.ready ==> Serves(w, w', e))
            && (w'.cr.value.ready && !w.cr.value.ready ==> w'.cr.value.meta.finalizer)
  {
    PushMeansServed(w, w.cr.value, e);
    CreateOrUpdateTouches(w, w.cr.value, e);
  }

  lemma PushMeansServed(w: World, c: CR, e: Env)
    requires Active(w, c)
    ensures var (w', ok) := CreateOrUpdate(w, c, e); ok ==> Serves(w, w', e)
  {
  }

  // A reconciliation that nothing disturbs but the absence of the cluster or of a schema reports it and does no more.
  lemma MissingDependencyIsReported(w: World, e: Env)
    requires w.cr.Some? && Active(w, w.cr.value) && !e.paused && w.cr.value.spec.updates.Some? && e.faults == map[]
    requires w.cluster == Gone || (w.cluster == Usable && w.cr.value.spec.refs != [] && !e.refsReady)
    ensures Reconcile(w, e) == w.(cr := Some(w.cr.value.(ready := false)))
  {
  }

  // A resource without an update strategy gets the one that keeps the data, whatever else is the matter, unless the
  // write has no effect.
  lemma DefaultStrategyKeepsData(w: World, e: Env)
    requires w.cr.Some? && Active(w, w.cr.value) && !e.paused && w.cr.value.spec.updates.None?
    ensures var c, w' := w.cr.value, Reconcile(w, e);
            && w'.cr.Some? && (e.Of(SetStrategy) == Failed ==> w' == w)
            && (e.Of(SetStrategy) != Failed ==> w'.cr.value.spec == c.spec.(updates := Some(Retain)))
            && w'.server == w.server && w'.queue == w.queue
            && (ReconcileOnServer(c) ==> ReconcileOnServer(w'.cr.value))
  {
  }

  // ---- deletion ----

  // The deletion of a finalized resource completes exactly when its cluster is gone or the server confirms the removal
  // of the cache, and the finalizer is dropped; it takes the cache from the server only in the second case.
  lemma DeletionCompletesWhen(w: World, e: Env)
    requires w.cr.Some? && w.cr.value.meta.deleting && w.cr.value.meta.finalizer && !w.cr.value.meta.marked
    ensures var c, w' := w.cr.value, Reconcile(w, e);
            var asked := w.cluster == Usable && e.Of(NewClient) == Ok;
            && (w'.cr.None? <==>
                  && (w.cluster == Gone || (asked && e.Of(DeleteCache) == Ok)) && e.Of(DropFinalizer) != Failed)
            && (w'.cr.Some? ==> w'.cr == w.cr)
            && w'.server == (if asked && e.Of(DeleteCache) != Failed then None else w.server)
            && w'.queue == (if asked && e.Of(DeleteCache) != Failed && w.server.Some? then w.queue + [Finalization]
                            else w.queue)
  {
  }

  // A marked resource goes exactly when its finalizer, if it has one, is dropped, which is all it takes while it is
  // being deleted, and otherwise when the drop is confirmed and the deletion has an effect. The server is left alone.
  lemma MarkedIsRemovedWhen(w: World, e: Env)
    requires w.cr.Some? && w.cr.value.meta.marked
    ensures var m, w' := w.cr.value.meta, Reconcile(w, e);
            && (w'.cr.None? <==>
                  if m.finalizer && m.deleting then e.Of(DropFinalizer) != Failed
                  else (m.finalizer ==> e.Of(DropFinalizer) == Ok) && e.Of(DeleteResource) != Failed)
            && w'.server == w.server
  {
  }

  // A reconciliation that is paused, or cannot get to the server although nothing is missing, does nothing.
  lemma UnreachedWaits(w: World, e: Env)
    requires w.cr.Some? && Active(w, w.cr.value) && !GetsThrough(w, e)
    requires || e.paused
             || (&& w.cr.value.spec.updates.Some? && w.cluster != Gone
                 && (w.cluster == Usable && w.cr.value.spec.refs != [] ==> e.refsReady))
    ensures Reconcile(w, e) == w
  {
  }

  // A reconciliation in which no call has an effect has none.
  lemma FailuresChangeNothing(w: World, e: Env)
    requires forall call :: e.Of(call) == Failed
    ensures Reconcile(w, e) == w
  {
  }

  // ---- removals on the server ----

  // A removal somebody else has made is mirrored once the listener has seen it: the resource disappears with the next
  // undisturbed reconciliation, and the server is left alone.
  lemma RemovalIsMirrored(w: World, o: Outcome, e: Env)
    requires o != Failed && w.cr.Some? && Active(w, w.cr.value) && !w.cr.value.meta.controllerDelete
    requires w.server.Some? && w.queue == [] && e.faults == map[]
    ensures var seen := Consume(Step(w, RemovedOnServer), o);
            && seen.cr.Some? && seen.cr.value.meta.marked
            && Reconcile(seen, e).cr.None? && Reconcile(seen, e).server == None
  {
  }

  // A removal that was announced is absorbed: the announcement goes, and the resource stays as it is.
  lemma AnnouncedRemovalIsAbsorbed(w: World, o: Outcome)
    requires o != Failed && w.cr.Some? && w.cr.value.meta.controllerDelete && w.queue != []
    ensures var c := w.cr.value;
            Consume(w, o) == w.(queue := w.queue[1..], cr := Some(c.(meta := c.meta.(controllerDelete := false))))
  {
  }

  // ---- from the server to the resource ----

  // A configuration that appears on the server is mirrored: the resource asks for it, and an undisturbed reconciliation
  // leaves it on the server and reports the resource ready, without contacting the server when the resource is new or
  // has changed.
  lemma ServerChangeIsMirrored(w: World, config: string, e: Env)
    requires Stamped(w) && w.cluster == Usable && config != "" && e.faults == map[] && !e.paused
    requires w.cr.Some? ==> Active(w, w.cr.value) && w.cr.value.spec.template != "" && w.cr.value.spec.updates.Some?
    ensures var w1 := Listen(w.(server := Some(config)), config);
            var w2 := Reconcile(w1, e);
            && w1.cr.Some? && w1.cr.value.spec.template == config && w1.cr.value.spec.templateName == ""
            && w1.cr.value.spec.refs == [] && w1.cr.value.meta.finalizer
            && w1.cr.value.spec.updates == (if w.cr.Some? then w.cr.value.spec.updates else Some(Retain))
            && (w.cr.None? ==> var m := w1.cr.value.meta;
                               !m.marked && !m.controllerDelete && !m.deleting && !w1.cr.value.ready)
            && (w1.past.writer == ByListener ==> !ReconcileOnServer(w1.cr.value))
            && w2.server == Some(config) && w2.cr == Some(w1.cr.value.(ready := true)) && w2.queue == w.queue
  {
  }
}
