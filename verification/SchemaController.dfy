/**
 The Schema controller: pushing a schema to the server, and removing it only when no Cache resource refers to it.
 */
module SchemaController {
  import opened ApiCalls
  import opened Operands

  datatype Cluster = Gone | NotFormed | Usable

  // `specName` is the name in the spec, if it is set.
  datatype Schema = Schema(name: string, cluster: string, specName: string, content: string, generation: nat,
                           listener: Option<nat>,
                           marked: bool, finalizer: bool, deleting: bool, ready: bool)

  // A Cache resource of the same namespace.
  datatype Cache = Cache(name: string, cluster: string, refs: seq<string>)

  // `server` is the content the server holds for the schema.
  datatype World = World(schema: Option<Schema>, cluster: Cluster, server: Option<string>, caches: seq<Cache>)

  datatype Call =
    | DropFinalizer | DeleteResource | SetStatus | SetSync | NewClient | ListCaches | DeleteSchema | PutSchema
                | CheckStatus

  datatype Env = Env(
    faults: map<Call, Outcome>,
    paused: bool,
    versionKnown: bool,
    bidirectional: bool,     // the release supports it and the ConfigListener is enabled
    rejected: bool,          // the server stores the schema but reports an error in it
    broken: bool             // the server lists the schema with an error
  ) {
    function Of(call: Call): Outcome {
      if call in faults then faults[call] else Ok
    }
  }

  predicate References(c: Cache, s: Schema) {
    c.cluster == s.cluster && s.name in c.refs
  }

  predicate Referenced(caches: seq<Cache>, s: Schema) {
    exists k :: 0 <= k < |caches| && References(caches[k], s)
  }

  predicate ReconcileOnServer(s: Schema) {
    s.listener.Some? ==> s.listener.value < s.generation
  }

  function Kept(s: Schema): Option<Schema> {
    if s.deleting && !s.finalizer then None else Some(s)
  }

  function Write(w: World, s: Schema, o: Outcome): World {
    if o == Failed then w else w.(schema := Kept(s))
  }

  function RemoveFinalizer(w: World, s: Schema, e: Env): World {
    if s.finalizer then Write(w, s.(finalizer := false), e.Of(DropFinalizer)) else w
  }

  function RemoveMarked(w: World, s: Schema, e: Env): World {
    var w1 := RemoveFinalizer(w, s, e);
    if (s.finalizer && e.Of(DropFinalizer) != Ok) || w1.schema.None? || e.Of(DeleteResource) == Failed then w1
    else w1.(schema := None)
  }

  function FinishDeletion(w: World, s: Schema, e: Env): World {
    if !s.finalizer || e.Of(ListCaches) != Ok then w
    else if Referenced(w.caches, s) then Write(w, s.(ready := false), e.Of(SetStatus))
    else
      var w1 := if e.Of(DeleteSchema) == Failed then w else w.(server := None);
      if e.Of(DeleteSchema) != Ok then w1 else RemoveFinalizer(w1, s, e)
  }

  function Push(w: World, s: Schema, e: Env): World {
    var push := !e.bidirectional || ReconcileOnServer(s);
    var w1 := if push && e.Of(PutSchema) != Failed then w.(server := Some(s.content)) else w;
    if push && (e.Of(PutSchema) != Ok || e.rejected) then Write(w1, s.(ready := false), e.Of(SetStatus))
    else if e.Of(CheckStatus) != Ok || e.broken then Write(w1, s.(ready := false, finalizer := true), e.Of(SetStatus))
    else Write(w1, s.(ready := true, finalizer := true), e.Of(SetStatus))
  }

  function Reconcile(w: World, e: Env): World {
    if w.schema.None? then w
    else
      var s := w.schema.value;
      if s.marked then RemoveMarked(w, s, e)
      else if !s.deleting && e.paused then w
      else if w.cluster == Gone then
        if s.deleting then RemoveFinalizer(w, s, e) else Write(w, s.(ready := false), e.Of(SetStatus))
      else if w.cluster != Usable || !e.versionKnown then w
      else if !e.bidirectional && e.Of(SetSync) != Ok then w
      else if e.Of(NewClient) != Ok then w
      else if s.deleting then FinishDeletion(w, s, e)
      else Push(w, s, e)
  }

  // What one reconciliation may take away, whatever fails in it: the schema on the server only for a resource being
  // deleted that no Cache resource of the cluster refers to; the finalizer, or the resource, only once that has
  // succeeded, or without a cluster, or for a resource marked by the listener.
  lemma RemovalIsSafe(w: World, e: Env)
    requires w.schema.Some?
    ensures var s, w' := w.schema.value, Reconcile(w, e);
            && (w.server.Some? && w'.server.None? ==>
                  && s.deleting && s.finalizer && w.cluster == Usable
                  && forall k :: 0 <= k < |w.caches| ==>
                       w.caches[k].cluster != s.cluster || s.name !in w.caches[k].refs)
            && (s.finalizer && (w'.schema.None? || !w'.schema.value.finalizer) ==>
                  || s.marked
                  || (s.deleting && w.cluster == Gone)
                  || (s.deleting && w'.server.None? && e.Of(DeleteSchema) == Ok && !Referenced(w.caches, s)))
  {
  }

  // A schema is reported ready only by a run in which the server lists it without an error, and, unless the listener
  // wrote it, after the server has taken exactly the content asked for.
  lemma ReadyMeansAccepted(w: World, e: Env)
    requires w.schema.Some? && !w.schema.value.ready
    ensures var s, w' := w.schema.value, Reconcile(w, e);
            w'.schema.Some? && w'.schema.value.ready ==>
              && e.Of(CheckStatus) == Ok && !e.broken && w'.schema.value.finalizer
              && (if e.bidirectional && !ReconcileOnServer(s) then w'.server == w.server
                  else w'.server == Some(s.content) && !e.rejected)
  {
  }

  // The reconciliation of a resource that is not being deleted gets to the server.
  predicate GetsThrough(w: World, e: Env) {
    && w.schema.Some? && !w.schema.value.marked && !w.schema.value.deleting && !e.paused && w.cluster == Usable
    && e.versionKnown && (e.bidirectional || e.Of(SetSync) == Ok) && e.Of(NewClient) == Ok
  }

  // Whether or not the resource was ready before: once the server has been asked, it is ready exactly when the content,
  // if it had to be pushed, was taken, and the server lists it without an error; provided the report takes effect. And
  // it is finalized whenever the push did not fail.
  lemma ReadyExactlyWhenAccepted(w: World, e: Env)
    requires GetsThrough(w, e) && e.Of(SetStatus) != Failed
    ensures var s, w' := w.schema.value, Reconcile(w, e);
            var pushed := !e.bidirectional || ReconcileOnServer(s);
            && w'.schema.Some?
            && (w'.schema.value.ready <==>
                  (pushed ==> e.Of(PutSchema) == Ok && !e.rejected) && e.Of(CheckStatus) == Ok && !e.broken)
            && (w'.schema.value.ready && pushed ==> w'.server == Some(s.content))
            && ((pushed ==> e.Of(PutSchema) == Ok && !e.rejected) ==> w'.schema.value.finalizer)
            && w'.schema.value == s.(ready := w'.schema.value.ready, finalizer := w'.schema.value.finalizer)
  {
  }

  // One that is paused, or cannot get to the server of a cluster that is there, does nothing.
  lemma UnreachedWaits(w: World, e: Env)
    requires w.schema.Some? && !w.schema.value.marked && !w.schema.value.deleting
    requires !GetsThrough(w, e) && (e.paused || w.cluster != Gone)
    ensures Reconcile(w, e) == w
  {
  }

  // A reconciliation in which no call has an effect has none.
  lemma FailuresChangeNothing(w: World, e: Env)
    requires forall call :: e.Of(call) == Failed
    ensures Reconcile(w, e) == w
  {
  }

  // A marked resource goes exactly when its finalizer, if it has one, is dropped, which is all it takes while it is
  // being deleted, and otherwise when the drop is confirmed and the deletion has an effect. The server is left alone.
  lemma MarkedIsRemovedWhen(w: World, e: Env)
    requires w.schema.Some? && w.schema.value.marked
    ensures var m, w' := w.schema.value, Reconcile(w, e);
            && (w'.schema.None? <==>
                  if m.finalizer && m.deleting then e.Of(DropFinalizer) != Failed
                  else (m.finalizer ==> e.Of(DropFinalizer) == Ok) && e.Of(DeleteResource) != Failed)
            && w'.server == w.server
  {
  }

  // Without the cluster the resource is reported not ready.
  lemma MissingClusterIsReported(w: World, e: Env)
    requires w.schema.Some? && !w.schema.value.marked && !w.schema.value.deleting && !e.paused
    requires w.cluster == Gone && e.Of(SetStatus) != Failed
    ensures Reconcile(w, e) == w.(schema := Some(w.schema.value.(ready := false)))
  {
  }

  // The deletion of a finalized resource completes exactly when its cluster is gone, or can be asked and no Cache
  // resource refers to the schema; each call failing as it may. It takes the schema from the server only in the second
  // case.
  lemma DeletionCompletesWhen(w: World, e: Env)
    requires w.schema.Some? && w.schema.value.deleting && w.schema.value.finalizer && !w.schema.value.marked
    ensures var s, w' := w.schema.value, Reconcile(w, e);
            var held := exists k :: 0 <= k < |w.caches|
                                    && w.caches[k].cluster == s.cluster && s.name in w.caches[k].refs;
            var asked := && w.cluster == Usable && e.versionKnown && (e.bidirectional || e.Of(SetSync) == Ok)
                         && e.Of(NewClient) == Ok && e.Of(ListCaches) == Ok;
            && w'.server == (if asked && !held && e.Of(DeleteSchema) != Failed then None else w.server)
            && (w'.schema.None? <==>
                  && (w.cluster == Gone || (asked && !held && e.Of(DeleteSchema) == Ok))
                  && e.Of(DropFinalizer) != Failed)
            && (w'.schema.Some? ==>
                  w'.schema == Some(s.(ready := s.ready && !(asked && held && e.Of(SetStatus) != Failed))))
  {
    if Referenced(w.caches, w.schema.value) {
      var k :| 0 <= k < |w.caches| && References(w.caches[k], w.schema.value);
      assert w.caches[k].cluster == w.schema.value.cluster;
    } else {
      assert forall k :: 0 <= k < |w.caches| ==> !References(w.caches[k], w.schema.value);
    }
  }

  // ---- runs ----

  // Reconciliations, and any other change of the resource, of the cluster and of the Cache resources.
  datatype Event = Reconciled(e: Env) | Changed(schema: Option<Schema>, cluster: Cluster, caches: seq<Cache>)

  function Step(w: World, ev: Event): World {
    match ev
    case Reconciled(e) => Reconcile(w, e)
    case Changed(schema, cluster, caches) => World(schema, cluster, w.server, caches)
  }

  function Steps(w: World, evs: seq<Event>): World
    decreases |evs|
  {
    if evs == [] then w else Steps(Step(w, evs[0]), evs[1..])
  }

  // The resource is referred to, or not there, in every state of the run.
  predicate ReferencedThroughout(w: World, evs: seq<Event>)
    decreases |evs|
  {
    (w.schema.Some? ==> Referenced(w.caches, w.schema.value))
      && (evs == [] || ReferencedThroughout(Step(w, evs[0]), evs[1..]))
  }

  // Over every run, whatever fails: a schema that Cache resources keep referring to is never removed from the server.
  lemma {:induction false} ReferencedSchemaSurvives(w: World, evs: seq<Event>)
    requires w.server.Some? && ReferencedThroughout(w, evs)
    ensures Steps(w, evs).server.Some?
    decreases |evs|
  {
    if evs != [] {
      if evs[0].Reconciled? && w.schema.Some? {
        RemovalIsSafe(w, evs[0].e);
      }
      ReferencedSchemaSurvives(Step(w, evs[0]), evs[1..]);
    }
  }
}
