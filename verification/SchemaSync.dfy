/**
 A Schema custom resource changed by its user, by the ConfigListener and by the controller: when the controller pushes
 it to the server.
 */
module SchemaSync {
  import opened ApiCalls
  import opened Operands
  import opened SchemaController

  datatype Writer = ByUser | ByListener

  // The world of the controller, and, as history, who changed the spec of the resource last.
  datatype Synced = Synced(w: World, writer: Writer)

  // The parts of the spec that can change.
  datatype SpecOf = SpecOf(specName: string, content: string)

  function WithSpec(s: Schema, spec: SpecOf): Schema {
    if SpecOf(s.specName, s.content) == spec then s
    else s.(specName := spec.specName, content := spec.content, generation := s.generation + 1)
  }

  // The update of a schema on the server: nothing is written when the content is the one the resource has; otherwise
  // the whole spec is, stamped with the generation it is going to produce. A schema without a resource gets one.
  function Listen(x: Synced, name: string, cluster: string, schemaName: string, content: string): Synced {
    match x.w.schema
    case None =>
      Synced(x.w.(schema := Some(Schema(name, cluster, schemaName, content, 1, Some(1), false, true, false, false))),
             ByListener)
    case Some(s) =>
      if s.content == content then x
      else
        var stamped := s.(finalizer := true, listener := Some(s.generation + 1));
        Synced(x.w.(schema := Some(WithSpec(stamped, SpecOf(schemaName, content)))), ByListener)
  }

  datatype Event =
    | Reconciled(e: Env)
    | Listened(name: string, cluster: string, schemaName: string, content: string)
    | Marked                       // by the listener, after a removal on the server
    | Created(name: string, cluster: string, spec: SpecOf)
    | Edited(spec: SpecOf)
    | Deleted
    | Touched(ready: bool)         // a write to the status, or to other metadata
    | Around(around: Cluster, server: Option<string>, caches: seq<Cache>)

  function Step(x: Synced, ev: Event): Synced {
    match ev
    case Reconciled(e) => x.(w := Reconcile(x.w, e))
    case Listened(name, cluster, schemaName, content) => Listen(x, name, cluster, schemaName, content)
    case Marked => if x.w.schema.None? then x else x.(w := x.w.(schema := Some(x.w.schema.value.(marked := true))))
    case Created(name, cluster, spec) =>
      if x.w.schema.Some? then x
      else
        var s := Schema(name, cluster, spec.specName, spec.content, 1, None, false, false, false, false);
        Synced(x.w.(schema := Some(s)), ByUser)
    case Edited(spec) =>
      if x.w.schema.None? || WithSpec(x.w.schema.value, spec) == x.w.schema.value then x
      else Synced(x.w.(schema := Some(WithSpec(x.w.schema.value, spec))), ByUser)
    case Deleted =>
      if x.w.schema.None? || x.w.schema.value.deleting then x
      else
        var s := x.w.schema.value;
        x.(w := x.w.(schema := Kept(s.(deleting := true, generation := s.generation + 1))))
    case Touched(ready) =>
      if x.w.schema.None? then x else x.(w := x.w.(schema := Some(x.w.schema.value.(ready := ready))))
    case Around(around, server, caches) => x.(w := World(x.w.schema, around, server, caches))
  }

  function Steps(x: Synced, evs: seq<Event>): Synced {
    if evs == [] then x else Step(Steps(x, evs[..|evs| - 1]), evs[|evs| - 1])
  }

  // The generation annotation is the present generation exactly when the listener changed the spec last.
  predicate Stamped(x: Synced) {
    x.w.schema.Some? ==>
      var s := x.w.schema.value;
      match s.listener
      case None => s.deleting || x.writer != ByListener
      case Some(g) => g <= s.generation && (!s.deleting ==> (g == s.generation <==> x.writer == ByListener))
  }

  // A reconciliation changes neither the spec nor the generation nor the annotation.
  lemma ReconcileTouches(w: World, e: Env)
    requires w.schema.Some?
    ensures var s, w' := w.schema.value, Reconcile(w, e);
            w'.schema.Some? ==>
              var s' := w'.schema.value;
              && s'.specName == s.specName && s'.content == s.content && s'.generation == s.generation
              && s'.listener == s.listener && s'.deleting == s.deleting
  {
  }

  lemma StampedStep(x: Synced, ev: Event)
    requires Stamped(x)
    ensures Stamped(Step(x, ev))
  {
    if ev.Reconciled? && x.w.schema.Some? {
      ReconcileTouches(x.w, ev.e);
    }
  }

  lemma {:induction false} StampedRun(x: Synced, evs: seq<Event>)
    requires x.w.schema.None?
    ensures Stamped(Steps(x, evs))
  {
    if evs != [] {
      StampedRun(x, evs[..|evs| - 1]);
      StampedStep(Steps(x, evs[..|evs| - 1]), evs[|evs| - 1]);
    }
  }

  // A reconciliation in which no call fails gets to the server.
  predicate Reaches(w: World, e: Env) {
    && w.schema.Some? && !w.schema.value.marked && !w.schema.value.deleting && w.cluster == Usable
    && e.faults == map[] && !e.paused && e.versionKnown
  }

  // Echo suppression over every interleaving, with nothing asked of the listener: the content is pushed exactly when
  // synchronisation is one-way or the listener did not change the spec last.
  lemma EchoIsSuppressed(x: Synced, evs: seq<Event>, e: Env)
    requires x.w.schema.None? && Reaches(Steps(x, evs).w, e)
    ensures var now := Steps(x, evs);
            var s, next := now.w.schema.value, Reconcile(now.w, e);
            && (ReconcileOnServer(s) <==> now.writer != ByListener)
            && next.server == (if !e.bidirectional || now.writer != ByListener then Some(s.content) else now.w.server)
  {
    StampedRun(x, evs);
  }

  // A suppressed reconciliation leaves the server alone whatever fails in it.
  lemma SuppressedLeavesServer(x: Synced, evs: seq<Event>, e: Env)
    requires x.w.schema.None? && Steps(x, evs).w.schema.Some? && !Steps(x, evs).w.schema.value.deleting
    requires e.bidirectional && Steps(x, evs).writer == ByListener
    ensures Reconcile(Steps(x, evs).w, e).server == Steps(x, evs).w.server
  {
    StampedRun(x, evs);
  }

  // ---- both ways ----

  // The server takes the schema and lists it without an error.
  predicate Accepting(e: Env) {
    e.faults == map[] && !e.paused && e.versionKnown && !e.rejected && !e.broken
  }

  // A user's edit that changes the spec reaches the server with the next undisturbed reconciliation, whatever has
  // happened before.
  lemma EditReachesServer(x: Synced, evs: seq<Event>, spec: SpecOf, e: Env)
    requires x.w.schema.None? && Accepting(e) && Steps(x, evs).w.cluster == Usable
    requires var w := Steps(x, evs).w; w.schema.Some? && !w.schema.value.marked && !w.schema.value.deleting
    requires var s := Steps(x, evs).w.schema.value; SpecOf(s.specName, s.content) != spec
    ensures var edited := Step(Steps(x, evs), Edited(spec));
            var w' := Reconcile(edited.w, e);
            && edited.writer == ByUser && edited.w.schema.value.specName == spec.specName
            && w'.server == Some(spec.content)
            && w'.schema == Some(edited.w.schema.value.(ready := true, finalizer := true))
  {
    StampedRun(x, evs);
    StampedStep(Steps(x, evs), Edited(spec));
  }

  // A content that appears on the server is mirrored: the resource asks for it, a new one being made if there was none,
  // and an undisturbed reconciliation leaves it on the server and reports the resource ready.
  lemma ServerChangeIsMirrored(x: Synced, evs: seq<Event>, name: string, cluster: string, schemaName: string,
                               content: string, e: Env)
    requires x.w.schema.None? && Accepting(e) && Steps(x, evs).w.cluster == Usable
    requires var w := Steps(x, evs).w; w.schema.Some? ==> !w.schema.value.marked && !w.schema.value.deleting
    ensures var now := Steps(x, evs);
            var heard := Listen(now.(w := now.w.(server := Some(content))), name, cluster, schemaName, content);
            var w' := Reconcile(heard.w, e);
            && heard.w.schema.Some? && heard.w.schema.value.content == content
            && (heard != now.(w := now.w.(server := Some(content))) ==>
                  && heard.w.schema.value.specName == schemaName && heard.w.schema.value.finalizer
                  && !ReconcileOnServer(heard.w.schema.value))
            && (now.w.schema.None? ==> var s := heard.w.schema.value;
                                       && s.name == name && s.cluster == cluster
                                       && !s.marked && !s.deleting && !s.ready && s.finalizer)
            && w'.server == Some(content) && w'.schema == Some(heard.w.schema.value.(ready := true, finalizer := true))
  {
    StampedRun(x, evs);
  }
}
